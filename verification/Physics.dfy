/** The simulated belts as the simulation runs them: one object, ticked, that moves parts
    in two phases and pokes the eyes. */
module Physics {
  import opened Model
  import opened Train

  /** What the registers say the motors are doing. */
  datatype Motors = Motors(z1Runs: bool, z1Down: bool, z2Runs: bool, z2Down: bool, feed: bool)

  datatype Belt = Belt(
    occupied: set<Station>,
    inCount: nat,
    outfed: nat,
    accum: real,
    transit: Option<(real, seq<Hop>)>,
    clearAt: Option<real>,
    z1Eye: bool,
    z2Eye: bool)

  /** A zone takes part only if it runs the way the shift goes. */
  function BeltsOfMotors(m: Motors): Belts {
    var downstream := if m.z1Runs then m.z1Down else m.z2Down;
    Belts(m.z1Runs && m.z1Down == downstream, m.z2Runs && m.z2Down == downstream, downstream, m.feed)
  }

  function Outgoing(arrivals: seq<Hop>): nat {
    if arrivals == [] then 0 else (if arrivals[0].dst == OUT then 1 else 0) + Outgoing(arrivals[1..])
  }

  predicate Crossed(arrivals: seq<Hop>) {
    arrivals != [] && ((arrivals[0].dst != OUT && arrivals[0].z1 && arrivals[0].z2) || Crossed(arrivals[1..]))
  }

  /** Destinations fill, also on a belt that has stopped; a crossing shows at its eye. */
  function Land(p: Belt, arrivals: seq<Hop>, m: Motors, now: real, dwell: real): Belt {
    p.(occupied := Landed(p.occupied, arrivals), outfed := p.outfed + Outgoing(arrivals), transit := None,
       clearAt := if Outgoing(arrivals) > 0 then Some(now + dwell) else p.clearAt,
       z1Eye := p.z1Eye || (Crossed(arrivals) && !m.z1Down), z2Eye := p.z2Eye || (Crossed(arrivals) && m.z1Down))
  }

  /** Sources vacate now; what left is on its way for `transit` seconds. */
  function Depart(p: Belt, m: Motors, now: real, transit: real): Belt {
    var s := Planned(p.occupied, p.inCount, BeltsOfMotors(m));
    p.(occupied := s.occupied, inCount := s.inCount, accum := 0.0,
       transit := if s.arrivals != [] then Some((now + transit, s.arrivals)) else None)
  }

  function TickBelt(p0: Belt, m: Motors, now: real, dt: real, transfer: real, transit: real, dwell: real): Belt {
    var p := p0.(clearAt := if p0.clearAt.Some? && now >= p0.clearAt.value then None else p0.clearAt);
    if p.transit.Some? then if now < p.transit.value.0 then p else Land(p, p.transit.value.1, m, now, dwell)
    else if !m.z1Runs && !m.z2Runs then p.(accum := 0.0, z1Eye := false, z2Eye := false)
    else if p.accum + dt < transfer then p.(accum := p.accum + dt)
    else Depart(p, m, now, transit)
  }

  class PhysicsSim {
    const transfer: real
    const transitTime: real
    const dwell: real
    var occupied: set<Station>
    var inCount: nat
    var outfed: nat
    var accum: real
    var transit: Option<(real, seq<Hop>)>
    var clearAt: Option<real>
    var z1Eye: bool
    var z2Eye: bool

    function Value(): Belt
      reads this
    {
      Belt(occupied, inCount, outfed, accum, transit, clearAt, z1Eye, z2Eye)
    }

    constructor (transfer: real, transitTime: real, dwell: real, inCount: nat)
      ensures this.transfer == transfer && this.transitTime == transitTime && this.dwell == dwell
      ensures Value() == Belt({}, inCount, 0, 0.0, None, None, false, false)
    {
      this.transfer, this.transitTime, this.dwell, this.inCount := transfer, transitTime, dwell, inCount;
      occupied, outfed, accum, transit, clearAt, z1Eye, z2Eye := {}, 0, 0.0, None, None, false, false;
    }

    method Arrive(arrivals: seq<Hop>, m: Motors, now: real)
      modifies this
      ensures Value() == Land(old(Value()), arrivals, m, now, dwell)
    {
      for i := 0 to |arrivals|
        invariant Landed(occupied, arrivals[i..]) == Landed(old(occupied), arrivals)
        invariant outfed + Outgoing(arrivals[i..]) == old(outfed) + Outgoing(arrivals)
        invariant clearAt == if outfed > old(outfed) then Some(now + dwell) else old(clearAt)
        invariant z1Eye || (Crossed(arrivals[i..]) && !m.z1Down) <==> old(z1Eye) || (Crossed(arrivals) && !m.z1Down)
        invariant z2Eye || (Crossed(arrivals[i..]) && m.z1Down) <==> old(z2Eye) || (Crossed(arrivals) && m.z1Down)
        invariant outfed >= old(outfed) && inCount == old(inCount) && accum == old(accum)
      {
        assert arrivals[i..][0] == arrivals[i] && arrivals[i..][1..] == arrivals[i + 1..];
        if arrivals[i].dst == OUT {
          outfed := outfed + 1;
          clearAt := Some(now + dwell);
        } else {
          occupied := occupied + {arrivals[i].dst};
          if arrivals[i].z1 && arrivals[i].z2 {
            if m.z1Down { z2Eye := true; } else { z1Eye := true; }
          }
        }
      }
      transit := None;
    }

    /** Plan against a working copy, vacating the sources as it goes. */
    method Leave(m: Motors, now: real)
      modifies this
      ensures Value() == Depart(old(Value()), m, now, transitTime)
    {
      var belts := BeltsOfMotors(m);
      var hops := Hops(belts.downstream);
      var work := occupied;
      var arrivals: seq<Hop> := [];
      for i := 0 to |hops|
        invariant Plan(Shift(work, occupied, inCount, arrivals), hops[i..], belts) ==
          Planned(old(occupied), old(inCount), belts)
        invariant Value() == old(Value()).(occupied := occupied, inCount := inCount)
      {
        var h := hops[i];
        assert hops[i..][0] == h && hops[i..][1..] == hops[i + 1..];
        if !Enabled(h, belts) { continue; }
        if h.src == IN {
          if belts.feed && inCount > 0 && F1 !in work {
            inCount := inCount - 1;
            arrivals := arrivals + [h];
            work := work + {F1};
          }
          continue;
        }
        if h.src !in work || (h.dst != OUT && h.dst in work) { continue; }
        work := work - {h.src};
        occupied := occupied - {h.src};
        arrivals := arrivals + [h];
        if h.dst != OUT { work := work + {h.dst}; }
      }
      accum := 0.0;
      transit := if arrivals != [] then Some((now + transitTime, arrivals)) else None;
    }

    method Tick(m: Motors, now: real, dt: real)
      modifies this
      ensures Value() == TickBelt(old(Value()), m, now, dt, transfer, transitTime, dwell)
    {
      if clearAt.Some? && now >= clearAt.value { clearAt := None; }
      if transit.Some? {
        if now < transit.value.0 { return; }
        Arrive(transit.value.1, m, now);
        return;
      }
      if !(m.z1Runs || m.z2Runs) {
        accum, z1Eye, z2Eye := 0.0, false, false;
        return;
      }
      accum := accum + dt;
      if accum < transfer { return; }
      Leave(m, now);
    }
  }

  // ------------------------------------------------------------ conservation

  /** Parts on the belts, on their way, waiting and gone. */
  function Census(p: Belt): int {
    |p.occupied| + (if p.transit.Some? then |p.transit.value.1| else 0) + p.inCount + p.outfed
  }

  /** Parts in flight have somewhere free to land. */
  predicate RoomToLand(occupied: set<Station>, arrivals: seq<Hop>)
    decreases |arrivals|
  {
    arrivals == [] ||
    ((arrivals[0].dst == OUT || arrivals[0].dst !in occupied)
     && RoomToLand(if arrivals[0].dst == OUT then occupied else occupied + {arrivals[0].dst}, arrivals[1..]))
  }

  lemma {:induction false} LandingCounts(occupied: set<Station>, arrivals: seq<Hop>)
    requires RoomToLand(occupied, arrivals)
    ensures |Landed(occupied, arrivals)| + Outgoing(arrivals) == |occupied| + |arrivals|
    decreases |arrivals|
  {
    if arrivals != [] {
      LandingCounts(if arrivals[0].dst == OUT then occupied else occupied + {arrivals[0].dst}, arrivals[1..]);
    }
  }

  /** A plan in progress: what will stand where is what still stands, plus arrivals
      that have room. */
  predicate PlanFits(s: Shift) {
    && Landed(s.occupied, s.arrivals) == s.work
    && RoomToLand(s.occupied, s.arrivals)
  }

  lemma {:induction false} LandedAppend(occupied: set<Station>, arrivals: seq<Hop>, h: Hop)
    ensures Landed(occupied, arrivals + [h]) ==
      if h.dst == OUT then Landed(occupied, arrivals) else Landed(occupied, arrivals) + {h.dst}
    ensures RoomToLand(occupied, arrivals) && (h.dst == OUT || h.dst !in Landed(occupied, arrivals)) ==>
      RoomToLand(occupied, arrivals + [h])
    decreases |arrivals|
  {
    if arrivals == [] {
      assert arrivals + [h] == [h];
      assert Landed(occupied, [h]) == Landed(if h.dst == OUT then occupied else occupied + {h.dst}, []);
    } else {
      LandedAppend(if arrivals[0].dst == OUT then occupied else occupied + {arrivals[0].dst}, arrivals[1..], h);
      assert (arrivals + [h])[1..] == arrivals[1..] + [h];
    }
  }

  /** A station that nothing is about to reach can be vacated before or after. */
  lemma {:induction false} LandedWithout(occupied: set<Station>, arrivals: seq<Hop>, st: Station)
    requires forall i :: 0 <= i < |arrivals| ==> arrivals[i].dst != st
    ensures Landed(occupied - {st}, arrivals) == Landed(occupied, arrivals) - {st}
    ensures RoomToLand(occupied, arrivals) ==> RoomToLand(occupied - {st}, arrivals)
    decreases |arrivals|
  {
    if arrivals != [] && arrivals[0].dst != OUT {
      LandedWithout(occupied + {arrivals[0].dst}, arrivals[1..], st);
      assert occupied + {arrivals[0].dst} - {st} == occupied - {st} + {arrivals[0].dst};
    } else if arrivals != [] {
      LandedWithout(occupied, arrivals[1..], st);
    }
  }

  /** No hop still to come starts where an earlier one lands. */
  predicate Ahead(arrivals: seq<Hop>, rest: seq<Hop>) {
    && (forall i, k :: 0 <= i < |arrivals| && 0 <= k < |rest| ==> arrivals[i].dst != rest[k].src)
    && (forall i, k :: 0 <= i < k < |rest| ==> rest[i].dst != rest[k].src)
    && (forall i :: 0 <= i < |rest| ==> rest[i].src == IN ==> rest[i].dst == F1)
  }

  function OnBelts(s: Shift): int {
    |s.occupied| + |s.arrivals| + s.inCount
  }

  lemma FeedConserves(s: Shift, h: Hop)
    requires PlanFits(s) && h.dst == F1 && F1 !in s.work && s.inCount > 0
    ensures
      var u := s.(inCount := s.inCount - 1, arrivals := s.arrivals + [h], work := s.work + {F1});
      PlanFits(u) && OnBelts(u) == OnBelts(s)
  {
    LandedAppend(s.occupied, s.arrivals, h);
  }

  lemma VacateConserves(s: Shift, h: Hop)
    requires PlanFits(s) && (forall i :: 0 <= i < |s.arrivals| ==> s.arrivals[i].dst != h.src)
    requires h.src in s.work && (h.dst == OUT || h.dst !in s.work)
    ensures
      var vacated := s.work - {h.src};
      var u := Shift(if h.dst == OUT then vacated else vacated + {h.dst}, s.occupied - {h.src}, s.inCount, s.arrivals + [h]);
      PlanFits(u) && OnBelts(u) == OnBelts(s)
  {
    var vacated := s.occupied - {h.src};
    LandedWithout(s.occupied, s.arrivals, h.src);
    assert Landed(vacated, s.arrivals) == s.work - {h.src};
    LandedAppend(vacated, s.arrivals, h);
    StillThere(s.occupied, s.arrivals, h.src);
  }

  lemma HopConserves(s: Shift, h: Hop, b: Belts)
    requires PlanFits(s) && Ahead(s.arrivals, [h])
    ensures PlanFits(PlanHop(s, h, b)) && OnBelts(PlanHop(s, h, b)) == OnBelts(s)
  {
    assert [h][0] == h;
    if h.src == IN {
      if F1 !in s.work && s.inCount > 0 {
        FeedConserves(s, h);
      }
    } else if h.src in s.work && (h.dst == OUT || h.dst !in s.work) {
      VacateConserves(s, h);
    }
  }

  /** Who will stand at a station nothing lands on stands there already. */
  lemma {:induction false} StillThere(occupied: set<Station>, arrivals: seq<Hop>, st: Station)
    requires forall i :: 0 <= i < |arrivals| ==> arrivals[i].dst != st
    ensures st in Landed(occupied, arrivals) <==> st in occupied
    decreases |arrivals|
  {
    if arrivals != [] {
      StillThere(if arrivals[0].dst == OUT then occupied else occupied + {arrivals[0].dst}, arrivals[1..], st);
    }
  }

  lemma AheadOn(s: Shift, hops: seq<Hop>, b: Belts)
    requires hops != [] && Ahead(s.arrivals, hops)
    ensures Ahead(s.arrivals, [hops[0]]) && Ahead(PlanHop(s, hops[0], b).arrivals, hops[1..])
  {
    var u := PlanHop(s, hops[0], b);
    forall i, k | 0 <= i < |u.arrivals| && 0 <= k < |hops[1..]| ensures u.arrivals[i].dst != hops[1..][k].src {
      assert hops[1..][k] == hops[k + 1];
    }
  }

  lemma {:induction false} PlanConserves(s: Shift, hops: seq<Hop>, b: Belts)
    requires PlanFits(s) && Ahead(s.arrivals, hops)
    ensures PlanFits(Plan(s, hops, b)) && OnBelts(Plan(s, hops, b)) == OnBelts(s)
    decreases |hops|
  {
    if hops != [] {
      AheadOn(s, hops, b);
      HopConserves(s, hops[0], b);
      PlanConserves(PlanHop(s, hops[0], b), hops[1..], b);
    }
  }

  /** Whoever is on the way has somewhere free to land. */
  predicate FlightHasRoom(p: Belt) {
    p.transit.Some? ==> RoomToLand(p.occupied, p.transit.value.1)
  }

  /** No part appears or vanishes: at every tick, whatever the motors do, the parts
      standing, on their way, waiting and gone are the same number, and whoever is on
      the way has somewhere free to land. */
  lemma TickConserves(p: Belt, m: Motors, now: real, dt: real, transfer: real, transit: real, dwell: real)
    requires FlightHasRoom(p)
    ensures
      var q := TickBelt(p, m, now, dt, transfer, transit, dwell);
      Census(q) == Census(p) && FlightHasRoom(q)
  {
    if p.transit.Some? {
      LandingCounts(p.occupied, p.transit.value.1);
    } else {
      var b := BeltsOfMotors(m);
      HopsAreAhead(b.downstream);
      PlanConserves(Shift(p.occupied, p.occupied, p.inCount, []), Hops(b.downstream), b);
    }
  }

  lemma HopsAreAhead(downstream: bool)
    ensures Ahead([], Hops(downstream))
  {
  }

  // ------------------------------------------------------- what a tick answers

  lemma {:induction false} LandedMeans(occupied: set<Station>, arrivals: seq<Hop>)
    ensures forall st :: st in Landed(occupied, arrivals) <==> st in occupied || (st != OUT && exists h :: h in arrivals && h.dst == st)
    decreases |arrivals|
  {
    if arrivals != [] {
      LandedMeans(if arrivals[0].dst == OUT then occupied else occupied + {arrivals[0].dst}, arrivals[1..]);
      assert forall h :: h in arrivals <==> h == arrivals[0] || h in arrivals[1..];
    }
  }

  /** A zone takes part in a shift if it runs, the second only the way the first does. */
  lemma ZonesTakePart(m: Motors)
    ensures
      var b := BeltsOfMotors(m);
      && b.z1 == m.z1Runs && b.z2 == (m.z2Runs && (m.z1Runs ==> m.z2Down == m.z1Down))
      && (m.z1Runs ==> b.downstream == m.z1Down) && (!m.z1Runs ==> b.downstream == m.z2Down) && b.feed == m.feed
  {
  }

  /** The outfeed eye: lit by a part that lands there, for `dwell` seconds, and dark from
      the first tick after them. */
  predicate OutfeedEye(p: Belt, q: Belt, now: real, dwell: real) {
    if q.outfed > p.outfed then q.clearAt == Some(now + dwell)
    else if p.clearAt.Some? && p.clearAt.value <= now then q.clearAt == None
    else q.clearAt == p.clearAt
  }

  /** Nothing but the outfeed eye and the travel. */
  predicate Rests(p: Belt, q: Belt) {
    q == p.(clearAt := q.clearAt, accum := q.accum, z1Eye := q.z1Eye, z2Eye := q.z2Eye)
  }

  predicate OnItsWay(p: Belt, now: real) {
    p.transit.Some? && now < p.transit.value.0
  }

  lemma OutgoingPositive(arrivals: seq<Hop>)
    ensures Outgoing(arrivals) > 0 <==> exists h :: h in arrivals && h.dst == OUT
  {
    if arrivals != [] {
      OutgoingPositive(arrivals[1..]);
      assert forall h :: h in arrivals <==> h == arrivals[0] || h in arrivals[1..];
    }
  }

  /** One tick. Parts on their way stay there until they are due, whatever the motors do;
      due, they land all at once; with the motors off the travel starts over and the
      handoff eyes go dark; short of a transfer the travel adds up; and with it done the
      train sets off. */
  lemma TickAnswers(p: Belt, m: Motors, now: real, dt: real, transfer: real, transit: real, dwell: real)
    ensures
      var q := TickBelt(p, m, now, dt, transfer, transit, dwell);
      && OutfeedEye(p, q, now, dwell)
      && (if OnItsWay(p, now) then Rests(p, q) && q.accum == p.accum && q.z1Eye == p.z1Eye && q.z2Eye == p.z2Eye
          else if p.transit.Some? then
            && q.transit == None && q.inCount == p.inCount && q.accum == p.accum
            && q.outfed == p.outfed + Outgoing(p.transit.value.1)
            && (forall st :: st in q.occupied <==>
                  st in p.occupied || (st != OUT && exists h :: h in p.transit.value.1 && h.dst == st))
          else if !m.z1Runs && !m.z2Runs then Rests(p, q) && q.accum == 0.0 && !q.z1Eye && !q.z2Eye
          else if p.accum + dt < transfer then
            Rests(p, q) && q.accum == p.accum + dt && q.z1Eye == p.z1Eye && q.z2Eye == p.z2Eye
          else
            var s := Planned(p.occupied, p.inCount, BeltsOfMotors(m));
            && q.occupied == s.occupied && q.inCount == s.inCount && q.accum == 0.0 && q.outfed == p.outfed
            && q.transit == if s.arrivals == [] then None else Some((now + transit, s.arrivals)))
  {
    if p.transit.Some? {
      LandedMeans(p.occupied, p.transit.value.1);
    }
  }
}

/** Interlock predicates: a reason when a guard blocks, None when it passes. */
module Guards {
  import opened Model
  import opened Timers

  /** The walk over the moves: each vacates its source, must find its destination
      free, and may not take a part from a fan before its flash is complete. */
  function WalkBlocked(s: LineState, cfg: Config, moves: seq<Move>, occupied: set<Station>): Option<Reason> {
    if moves == [] then None else
    var m := moves[0];
    var vacated := occupied - {m.src};
    if m.dst != OUT && m.dst in vacated then Some(DestinationOccupied(m.dst)) else
    var part := s.PartAt(m.src);
    if part.Some? && (m.src == F1 || m.src == F2) && !MayLeaveFan(part.value, cfg) then
      Some(FlashOwed(part.value.partId, m.src))
    else
      WalkBlocked(s, cfg, moves[1..], if m.dst == OUT then vacated else vacated + {m.dst})
  }

  function DepartureBlocked(s: LineState, sensors: Sensors, cfg: Config, moves: seq<Move>): Option<Reason> {
    if !sensors.robotClear then Some(RobotNotClear)
    else if sensors.gunOn then Some(GunLive)
    else if Move(IN, F1) in moves && !sensors.inEye then Some(QueueHeadEmpty)
    else if Move(F2, OUT) in moves && sensors.outEye then Some(OutfeedOccupied)
    else WalkBlocked(s, cfg, moves, sensors.occupied)
  }

  /** The guard as the original runs it: one loop over a shrinking and growing
      set of occupied stations. */
  method CheckDeparture(s: LineState, sensors: Sensors, cfg: Config, moves: seq<Move>)
    returns (blocked: Option<Reason>)
    ensures blocked == DepartureBlocked(s, sensors, cfg, moves)
  {
    if !sensors.robotClear { return Some(RobotNotClear); }
    if sensors.gunOn { return Some(GunLive); }
    if Move(IN, F1) in moves && !sensors.inEye { return Some(QueueHeadEmpty); }
    if Move(F2, OUT) in moves && sensors.outEye { return Some(OutfeedOccupied); }
    var occupied := sensors.occupied;
    for i := 0 to |moves|
      invariant WalkBlocked(s, cfg, moves, sensors.occupied) == WalkBlocked(s, cfg, moves[i..], occupied)
    {
      var m := moves[i];
      assert moves[i..][0] == m && moves[i..][1..] == moves[i + 1..];
      occupied := occupied - {m.src};
      if m.dst != OUT {
        if m.dst in occupied { return Some(DestinationOccupied(m.dst)); }
        occupied := occupied + {m.dst};
      }
      var part := s.PartAt(m.src);
      if part.Some? && (m.src == F1 || m.src == F2) && !MayLeaveFan(part.value, cfg) {
        return Some(FlashOwed(part.value.partId, m.src));
      }
    }
    return None;
  }

  function ZoneMotionBlocked(s: LineState, sensors: Sensors, cfg: Config, moves: seq<Move>): Option<Reason> {
    if sensors.shutter != Open then Some(ShutterNotOpen)
    else DepartureBlocked(s, sensors, cfg, moves)
  }

  function SprayStationNotReady(s: LineState, sensors: Sensors): Option<Reason> {
    if sensors.shutter != Closed then Some(ShutterNotClosed)
    else if O !in sensors.occupied then Some(NoPartAtO)
    else if s.PartAt(O).None? then Some(NoPartRecordedAtO)
    else None
  }

  /** The full spray interlock. Stated by the source, never called by it. */
  function SprayBlocked(s: LineState, sensors: Sensors): Option<Reason> {
    var notReady := SprayStationNotReady(s, sensors);
    if notReady.Some? then notReady
    else if s.PartAt(F1).Some? && s.PartAt(F1).value.isWet && sensors.f1Fan
    then Some(WetPartUnderFan(s.PartAt(F1).value.partId))
    else None
  }

  predicate Disagrees(s: LineState, sensors: Sensors, station: Station) {
    (station in s.occupancy) != (station in sensors.occupied)
  }

  function OccupancyMismatch(s: LineState, sensors: Sensors): Option<Reason> {
    if Disagrees(s, sensors, F1) then Some(SensorMismatch(F1, F1 in s.occupancy))
    else if Disagrees(s, sensors, O) then Some(SensorMismatch(O, O in s.occupancy))
    else if Disagrees(s, sensors, F2) then Some(SensorMismatch(F2, F2 in s.occupancy))
    else None
  }
}

/** The inductive invariant of the schedule, in closed form. The declared parts
    are numbered in arrival order; at effective beat `b` of pair `j` the station
    of every part is a fixed function of its number, so startup, an odd lone lead
    and the drain are the same formula with numbers outside the batch. */
module Pattern {
  import opened Model
  import opened Schedule
  import opened Timers
  import opened Guards
  import opened Machine
  import opened Moves

  // ------------------------------------------------------- effective time

  /** Where the machine is, or was when it faulted. */
  function Entry(s: LineState): Phase {
    if s.phase == Faulted then EntryPhase(s) else s.phase
  }

  /** The beat counter advances only after the train has moved. */
  predicate AfterMove(s: LineState) {
    Entry(s) == ShutterClose || Entry(s) == SetFans
  }

  function EffBeat(s: LineState): Beat {
    if AfterMove(s) then NextBeat(s.beat) else s.beat
  }

  function EffPair(s: LineState): int {
    s.pairIndex - 1 + (if AfterMove(s) && s.beat == P4 then 1 else 0)
  }

  /** The robot's work of the effective beat is certainly finished. */
  predicate WorkDone(s: LineState) {
    Entry(s) == AwaitGuards || Entry(s) == ShutterOpen || Entry(s) == Moving
  }

  // ------------------------------------------------------------- positions

  /** Number of the part at a station; None where the beat leaves it empty. */
  function NumberAt(b: Beat, j: int, st: Station): Option<int> {
    match st
    case F2 => (match b case P1 => Some(2 * j - 1) case P2 => Some(2 * j) case P3 => None case P4 => Some(2 * j))
    case O => (match b case P1 => Some(2 * j) case P2 => Some(2 * j + 1) case P3 => Some(2 * j) case P4 => Some(2 * j + 1))
    case F1 => (match b case P1 => Some(2 * j + 1) case P2 => None case P3 => Some(2 * j + 1) case P4 => Some(2 * j + 2))
    case IN => None
    case OUT => None
  }

  function NextNumber(b: Beat, j: int): int {
    if b == P4 then 2 * j + 3 else 2 * j + 2
  }

  /** The lowest number still on the line. */
  function LowNumber(b: Beat, j: int): int {
    if b == P1 then 2 * j - 1 else 2 * j
  }

  function Clamp(i: int, n: nat): (r: nat)
    ensures r <= n
  {
    if i < 0 then 0 else if i > n then n else i
  }

  function Occupant(all: seq<PartId>, b: Beat, j: int, st: Station): Option<PartId> {
    var i := NumberAt(b, j, st);
    if i.Some? && 0 <= i.value < |all| then Some(all[i.value]) else None
  }

  predicate Named(all: seq<PartId>) {
    forall i :: 0 <= i < |all| ==> all[i] != EmptyId
  }

  /** A part's arrival number, which its role and pair index encode. */
  function Number(p: PartState): int {
    2 * p.pairIndex + if p.role == LEAD then 0 else 1
  }

  // ------------------------------------------------------------- progress

  /** Coats and flash 1 owed to the part at offset `r` from the pair's lead. */
  predicate Progress(b: Beat, r: int, done: bool, p: PartState, cfg: Config) {
    var flashed := p.flash1 >= cfg.flashSeconds;
    match b
    case P1 =>
      if r == -1 then p.coats == 2 && flashed
      else if r == 0 then p.coats <= 1 && (done ==> p.coats == 1)
      else p.coats == 0
    case P2 =>
      if r == 0 then p.coats == 1
      else if r == 1 then p.coats <= 1 && (done ==> p.coats == 1)
      else p.coats == 0
    case P3 =>
      if r == 0 then 1 <= p.coats <= 2 && (done ==> p.coats == 2) && flashed
      else if r == 1 then p.coats == 1
      else p.coats == 0
    case P4 =>
      if r == 0 then p.coats == 2 && flashed
      else if r == 1 then 1 <= p.coats <= 2 && (done ==> p.coats == 2) && flashed
      else p.coats == 0
  }

  /** A part on or before the line knows its id, its number and its progress. */
  predicate PartFits(all: seq<PartId>, cfg: Config, b: Beat, j: int, done: bool, pid: PartId, p: PartState) {
    && p.partId == pid
    && 0 <= Number(p) < |all| && all[Number(p)] == pid
    && LowNumber(b, j) <= Number(p)
    && Progress(b, Number(p) - 2 * j, done, p, cfg)
  }

  // ------------------------------------------------------------ invariant

  predicate PartsFit(all: seq<PartId>, cfg: Config, b: Beat, j: int, done: bool, parts: map<PartId, PartState>) {
    && (forall pid :: pid in parts ==> PartFits(all, cfg, b, j, done, pid, parts[pid]))
    && (forall i :: 0 <= i < |all| && LowNumber(b, j) <= i ==> all[i] in parts && Number(parts[all[i]]) == i)
  }

  predicate PlacesFit(all: seq<PartId>, b: Beat, j: int, l: Layout) {
    && (forall st :: At(l.occupancy, st) == Occupant(all, b, j, st))
    && l.inQueue == all[Clamp(NextNumber(b, j), |all|)..]
  }

  /** What a train advance under way was checked against before it started. */
  predicate FlightFits(cfg: Config, s: LineState) {
    s.inFlight != [] ==>
      && Entry(s) == Moving
      && s.inFlight == LiveMoves(s)
      && (forall m :: m in s.inFlight ==> !UnderFlashed(s, cfg, m))
  }

  predicate FaultFits(s: LineState) {
    && (s.phase == Faulted <==> s.fault.Some?)
    && (s.phase != Faulted ==> s.faultPhase.None?)
    && s.faultPhase != Some(Faulted)
  }

  predicate OnSchedule(all: seq<PartId>, cfg: Config, s: LineState) {
    && Named(all)
    && EffPair(s) >= -1
    && PlacesFit(all, EffBeat(s), EffPair(s), LayoutOf(s))
    && PartsFit(all, cfg, EffBeat(s), EffPair(s), WorkDone(s), s.parts)
    && FlightFits(cfg, s)
    && FaultFits(s)
  }

  /** A batch declared on an empty line at beat P1: non-empty ids, roles
      alternating from LEAD, nothing coated. Ids are distinct because each part
      record carries its own arrival number. */
  predicate Declared(all: seq<PartId>, s: LineState) {
    && Named(all)
    && s.occupancy == map[] && s.inQueue == all && s.inFlight == [] && s.pending == []
    && s.beat == P1 && s.pairIndex == 0 && s.phase == RobotWork
    && s.fault.None? && s.faultPhase.None?
    && (forall pid :: pid in s.parts ==>
         IsFresh(s.parts[pid], pid) && 0 <= Number(s.parts[pid]) < |all| && all[Number(s.parts[pid])] == pid)
    && (forall i :: 0 <= i < |all| ==> all[i] in s.parts && Number(s.parts[all[i]]) == i)
  }

  predicate IsFresh(p: PartState, pid: PartId) {
    p.partId == pid && p.coats == 0 && p.flash1 == 0.0 && p.flash2 == 0.0 && !p.isWet
  }

  /** The batch the declaration call makes of `n` fresh ids on an empty line. */
  function FreshBatch(n: nat): (seq<PartId>, LineState) {
    var all := seq(n, i requires 0 <= i < n => Id(i));
    var parts := map pid | pid in all :: FreshPart(pid);
    (all, LineState(parts, map[], all, [], [], P1, 0, RobotWork, false, false, Closed, false, None, None))
  }

  /** Roles by parity of the running count, pairs by halves. */
  function FreshPart(pid: PartId): PartState {
    var i := if pid.Id? then pid.key else 0;
    PartState(pid, CUBE, if i % 2 == 0 then LEAD else TRAIL, i / 2, 0, 0.0, 0.0, false)
  }

  /** Declaring on an empty line gives the starting point of every run below, for
      every batch length. */
  lemma FreshBatchIsDeclared(n: nat)
    ensures var (all, s) := FreshBatch(n); |all| == n && Declared(all, s)
  {
    var (all, s) := FreshBatch(n);
    forall i | 0 <= i < n ensures all[i] in s.parts && Number(s.parts[all[i]]) == i {
      assert all[i] == Id(i);
    }
  }

  lemma DeclaredOnSchedule(all: seq<PartId>, cfg: Config, s: LineState)
    requires Declared(all, s)
    ensures OnSchedule(all, cfg, s)
  {
  }

  // ---------------------------------------------------------- the advance

  /** Where each transition takes the part of each station. */
  lemma FeederTable(b: Beat)
    ensures FeederOf(TransitionMoves(b), F2) == if b == P2 then None else Some(O)
    ensures FeederOf(TransitionMoves(b), O) == if b == P2 then Some(F2) else Some(F1)
    ensures FeederOf(TransitionMoves(b), F1) ==
      match b case P1 => None case P2 => Some(O) case P3 => Some(IN) case P4 => Some(IN)
    ensures FeederOf(TransitionMoves(b), OUT) == if b == P1 || b == P4 then Some(F2) else None
    ensures forall st :: Leaves(TransitionMoves(b), st) <==>
      (match st case F2 => b != P3 case O => true case F1 => b != P2 case IN => b == P3 || b == P4 case OUT => false)
  {
    var ms := TransitionMoves(b);
    FeederIsMove(ms, F2);
    FeederIsMove(ms, O);
    FeederIsMove(ms, F1);
    FeederIsMove(ms, OUT);
    assert ms[0] in ms && ms[1] in ms && (|ms| > 2 ==> ms[2] in ms) && (|ms| > 3 ==> ms[3] in ms);
  }

  lemma {:induction false} FilterMembers(s: LineState, moves: seq<Move>, m: Move)
    ensures m in Filter(s, moves) <==> m in moves && IsLive(s, m)
  {
    if moves != [] {
      FilterMembers(s, moves[1..], m);
    }
  }

  lemma LiveIs(s: LineState, m: Move)
    ensures m in LiveMoves(s) <==> m in TransitionMoves(s.beat) && IsLive(s, m)
  {
    FilterMembers(s, TransitionMoves(s.beat), m);
  }

  /** The state right after the advance, its beat counter not yet stepped. */
  function Advanced(s: LineState): LineState {
    Shifted(s, LiveMoves(s)).(inFlight := [], phase := ShutterClose)
  }

  /** Before the advance, with the robot's work done and every fan part flashed. */
  predicate ReadyToAdvance(all: seq<PartId>, cfg: Config, s: LineState) {
    && OnSchedule(all, cfg, s)
    && s.phase == Moving
    && (forall m :: m in LiveMoves(s) ==> !UnderFlashed(s, cfg, m))
  }

  /** The transitions as a table: whose part a station receives. */
  function Feeder(b: Beat, st: Station): Option<Station> {
    match st
    case F2 => if b == P2 then None else Some(O)
    case O => if b == P2 then Some(F2) else Some(F1)
    case F1 => (match b case P1 => None case P2 => Some(O) case P3 => Some(IN) case P4 => Some(IN))
    case OUT => if b == P1 || b == P4 then Some(F2) else None
    case IN => None
  }

  predicate Vacates(b: Beat, st: Station) {
    match st
    case F2 => b != P3
    case O => true
    case F1 => b != P2
    case IN => b == P3 || b == P4
    case OUT => false
  }

  function LandsOn(b: Beat, l: Layout, st: Station): Option<PartId> {
    var feeder := Feeder(b, st);
    if feeder.Some? && Offered(l, feeder.value).Some? then Offered(l, feeder.value)
    else if Vacates(b, st) then None
    else At(l.occupancy, st)
  }

  /** The part an outgoing transition takes off the line. */
  function Outbound(b: Beat, l: Layout): Option<PartId> {
    if b == P1 || b == P4 then At(l.occupancy, F2) else None
  }

  /** The layout after the transition of beat `b`, station by station. */
  predicate BeatShift(b: Beat, l: Layout, r: Layout) {
    && (forall st :: st != IN && st != OUT ==> At(r.occupancy, st) == LandsOn(b, l, st))
    && At(r.occupancy, IN) == At(l.occupancy, IN)
    && At(r.occupancy, OUT) == At(l.occupancy, OUT)
    && r.inQueue == (if Vacates(b, IN) && l.inQueue != [] then l.inQueue[1..] else l.inQueue)
    && r.parts == (if Outbound(b, l).Some? then l.parts - {Outbound(b, l).value} else l.parts)
  }

  lemma SimultaneousIsBeatShift(b: Beat, l: Layout, r: Layout)
    requires IsSimultaneousShift(l, TransitionMoves(b), r)
    ensures BeatShift(b, l, r)
  {
    FeederTable(b);
    forall st | st != IN && st != OUT ensures At(r.occupancy, st) == LandsOn(b, l, st) {
      assert At(r.occupancy, st) == After(l, TransitionMoves(b), st);
    }
  }

  /** The train advance of a named layout is the beat's shift. */
  lemma AdvanceIsShift(s: LineState)
    requires forall st :: st in s.occupancy ==> s.occupancy[st] != EmptyId
    ensures BeatShift(s.beat, LayoutOf(s), LayoutOf(Advanced(s)))
  {
    var moves := TransitionMoves(s.beat);
    ScheduleIsWellOrdered(s.beat);
    FilterIsSkip(s, LayoutOf(s), moves);
    InOrderIsSimultaneous(LayoutOf(s), moves);
    SimultaneousIsBeatShift(s.beat, LayoutOf(s), ApplyMoves(LayoutOf(s), LiveMoves(s)));
  }

  function NextPair(b: Beat, j: int): int {
    if b == P4 then j + 1 else j
  }

  lemma PlaceAdvance(all: seq<PartId>, b: Beat, j: int, l: Layout, st: Station)
    requires PlacesFit(all, b, j, l) && j >= -1
    requires st != IN && st != OUT
    ensures LandsOn(b, l, st) == Occupant(all, NextBeat(b), NextPair(b, j), st)
  {
    assert At(l.occupancy, F1) == Occupant(all, b, j, F1);
    assert At(l.occupancy, O) == Occupant(all, b, j, O);
    assert At(l.occupancy, F2) == Occupant(all, b, j, F2);
  }

  lemma PlacesAdvance(all: seq<PartId>, b: Beat, j: int, l: Layout, r: Layout)
    requires PlacesFit(all, b, j, l) && j >= -1
    requires BeatShift(b, l, r)
    ensures PlacesFit(all, NextBeat(b), NextPair(b, j), r)
  {
    forall st ensures At(r.occupancy, st) == Occupant(all, NextBeat(b), NextPair(b, j), st) {
      if st == IN || st == OUT {
        assert At(l.occupancy, st) == Occupant(all, b, j, st);
      } else {
        PlaceAdvance(all, b, j, l, st);
      }
    }
  }

  /** The flash the next beat relies on, read off the departure guard. */
  predicate FanPartFlashed(all: seq<PartId>, cfg: Config, b: Beat, j: int, parts: map<PartId, PartState>) {
    var i := if b == P2 then 2 * j else 2 * j + 1;
    (b == P2 || b == P3) && 0 <= i < |all| && all[i] in parts ==>
      parts[all[i]].flash1 >= cfg.flashSeconds
  }

  /** Progress carried over the transition by a part that stays on the line. */
  lemma ProgressAdvance(b: Beat, j: int, n: int, p: PartState, cfg: Config)
    requires Progress(b, n - 2 * j, true, p, cfg)
    requires (b == P2 && n == 2 * j) || (b == P3 && n == 2 * j + 1) ==> p.flash1 >= cfg.flashSeconds
    requires (b == P1 || b == P4) ==> Some(n) != NumberAt(b, j, F2)
    requires LowNumber(b, j) <= n
    ensures LowNumber(NextBeat(b), NextPair(b, j)) <= n
    ensures Progress(NextBeat(b), n - 2 * NextPair(b, j), false, p, cfg)
  {
  }

  /** A part that is not the outgoing one keeps its record and its progress. */
  lemma PartAdvance(all: seq<PartId>, cfg: Config, b: Beat, j: int, l: Layout, pid: PartId)
    requires PlacesFit(all, b, j, l)
    requires PartsFit(all, cfg, b, j, true, l.parts)
    requires FanPartFlashed(all, cfg, b, j, l.parts)
    requires pid in l.parts && Outbound(b, l) != Some(pid)
    ensures PartFits(all, cfg, NextBeat(b), NextPair(b, j), false, pid, l.parts[pid])
  {
    assert At(l.occupancy, F2) == Occupant(all, b, j, F2);
    assert PartFits(all, cfg, b, j, true, pid, l.parts[pid]);
    ProgressAdvance(b, j, Number(l.parts[pid]), l.parts[pid], cfg);
  }

  lemma PartsAdvance(all: seq<PartId>, cfg: Config, b: Beat, j: int, l: Layout, r: Layout)
    requires PlacesFit(all, b, j, l)
    requires PartsFit(all, cfg, b, j, true, l.parts)
    requires FanPartFlashed(all, cfg, b, j, l.parts)
    requires r.parts == if Outbound(b, l).Some? then l.parts - {Outbound(b, l).value} else l.parts
    ensures PartsFit(all, cfg, NextBeat(b), NextPair(b, j), false, r.parts)
  {
    forall pid | pid in r.parts
      ensures PartFits(all, cfg, NextBeat(b), NextPair(b, j), false, pid, r.parts[pid])
    {
      PartAdvance(all, cfg, b, j, l, pid);
    }
    assert At(l.occupancy, F2) == Occupant(all, b, j, F2);
  }

  lemma FanPartIsFlashed(all: seq<PartId>, cfg: Config, s: LineState)
    requires OnSchedule(all, cfg, s) && !AfterMove(s)
    requires forall m :: m in LiveMoves(s) ==> !UnderFlashed(s, cfg, m)
    ensures FanPartFlashed(all, cfg, s.beat, s.pairIndex - 1, s.parts)
  {
    var b, j := s.beat, s.pairIndex - 1;
    if b == P2 || b == P3 {
      var i := if b == P2 then 2 * j else 2 * j + 1;
      var m := if b == P2 then Move(F2, O) else Move(F1, O);
      if 0 <= i < |all| && all[i] in s.parts {
        assert At(s.occupancy, m.src) == Occupant(all, b, j, m.src);
        assert PartFits(all, cfg, b, j, WorkDone(s), all[i], s.parts[all[i]]);
        assert m in TransitionMoves(b) by {
          if b == P2 { assert TransitionMoves(b)[1] == m; } else { assert TransitionMoves(b)[1] == m; }
        }
        LiveIs(s, m);
      }
    }
  }

  lemma Settled(all: seq<PartId>, cfg: Config, t: LineState, b: Beat, j: int)
    requires t.phase == ShutterClose && t.inFlight == [] && t.fault.None? && t.faultPhase.None?
    requires b == NextBeat(t.beat) && j == NextPair(t.beat, t.pairIndex - 1) && j >= -1
    requires Named(all) && PlacesFit(all, b, j, LayoutOf(t)) && PartsFit(all, cfg, b, j, false, t.parts)
    ensures OnSchedule(all, cfg, t)
  {
    assert EffBeat(t) == b && EffPair(t) == j && !WorkDone(t);
  }

  lemma ShiftedPlaces(all: seq<PartId>, cfg: Config, s: LineState, r: Layout)
    requires OnSchedule(all, cfg, s) && !AfterMove(s)
    requires BeatShift(s.beat, LayoutOf(s), r)
    ensures PlacesFit(all, NextBeat(s.beat), NextPair(s.beat, s.pairIndex - 1), r)
  {
    PlacesAdvance(all, s.beat, s.pairIndex - 1, LayoutOf(s), r);
  }

  lemma ShiftedParts(all: seq<PartId>, cfg: Config, s: LineState, r: Layout)
    requires ReadyToAdvance(all, cfg, s)
    requires BeatShift(s.beat, LayoutOf(s), r)
    ensures PartsFit(all, cfg, NextBeat(s.beat), NextPair(s.beat, s.pairIndex - 1), false, r.parts)
  {
    FanPartIsFlashed(all, cfg, s);
    PartsAdvance(all, cfg, s.beat, s.pairIndex - 1, LayoutOf(s), r);
  }

  /** The advance carries the invariant from one beat to the next. */
  lemma AdvanceKeepsSchedule(all: seq<PartId>, cfg: Config, s: LineState)
    requires ReadyToAdvance(all, cfg, s)
    ensures OnSchedule(all, cfg, Advanced(s))
  {
    ScheduledIdsNamed(all, cfg, s);
    AdvanceIsShift(s);
    ShiftedPlaces(all, cfg, s, LayoutOf(Advanced(s)));
    ShiftedParts(all, cfg, s, LayoutOf(Advanced(s)));
    Settled(all, cfg, Advanced(s), NextBeat(s.beat), NextPair(s.beat, s.pairIndex - 1));
  }

  lemma OnlyOutboundLeaves(all: seq<PartId>, cfg: Config, s: LineState, pid: PartId)
    requires ReadyToAdvance(all, cfg, s)
    requires pid in s.parts && pid !in Advanced(s).parts
    ensures Outbound(s.beat, LayoutOf(s)) == Some(pid)
  {
    ScheduledIdsNamed(all, cfg, s);
    AdvanceIsShift(s);
    assert LayoutOf(Advanced(s)).parts == Advanced(s).parts;
  }

  lemma OutboundFinished(all: seq<PartId>, cfg: Config, s: LineState, pid: PartId)
    requires ReadyToAdvance(all, cfg, s) && pid in s.parts
    requires Outbound(s.beat, LayoutOf(s)) == Some(pid)
    ensures s.parts[pid].coats == 2
    ensures s.parts[pid].flash1 >= cfg.flashSeconds && s.parts[pid].flash2 >= cfg.flashSeconds
  {
    var b, j := s.beat, s.pairIndex - 1;
    assert At(s.occupancy, F2) == Occupant(all, b, j, F2);
    assert PartFits(all, cfg, b, j, WorkDone(s), pid, s.parts[pid]);
    assert TransitionMoves(b)[0] == Move(F2, OUT);
    LiveIs(s, Move(F2, OUT));
  }

  /** A part leaving the line carries both coats and two complete flashes. */
  lemma OutfedPartIsFinished(all: seq<PartId>, cfg: Config, s: LineState, pid: PartId)
    requires ReadyToAdvance(all, cfg, s)
    requires pid in s.parts && pid !in Advanced(s).parts
    ensures Outbound(s.beat, LayoutOf(s)) == Some(pid)
    ensures s.parts[pid].coats == 2
    ensures s.parts[pid].flash1 >= cfg.flashSeconds && s.parts[pid].flash2 >= cfg.flashSeconds
  {
    OnlyOutboundLeaves(all, cfg, s, pid);
    OutboundFinished(all, cfg, s, pid);
  }

  lemma ScheduledIdsNamed(all: seq<PartId>, cfg: Config, s: LineState)
    requires OnSchedule(all, cfg, s)
    ensures forall st :: st in s.occupancy ==>
      s.occupancy[st] != EmptyId && Occupant(all, EffBeat(s), EffPair(s), st) == Some(s.occupancy[st])
    ensures forall st :: st in s.occupancy <==> Occupant(all, EffBeat(s), EffPair(s), st).Some?
  {
    forall st ensures st in s.occupancy <==> Occupant(all, EffBeat(s), EffPair(s), st).Some? {
      assert At(s.occupancy, st) == Occupant(all, EffBeat(s), EffPair(s), st);
    }
    forall st | st in s.occupancy
      ensures s.occupancy[st] != EmptyId && Occupant(all, EffBeat(s), EffPair(s), st) == Some(s.occupancy[st])
    {
      assert At(s.occupancy, st) == Occupant(all, EffBeat(s), EffPair(s), st);
    }
  }
}

/** Train moves as rearrangements: in-order application of a well-ordered move
    list is the simultaneous shift, and the guard's walk rejects exactly the
    lists that would push one part into another. */
module Moves {
  import opened Model
  import opened Schedule
  import opened Timers
  import opened Guards
  import opened Machine

  /** Distinct sources, distinct destinations, and a destination that is also a
      source is vacated before it is filled. */
  predicate WellOrdered(moves: seq<Move>) {
    && (forall i :: 0 <= i < |moves| ==>
         moves[i].src != OUT && moves[i].dst != IN && moves[i].src != moves[i].dst)
    && (forall i, j :: 0 <= i < j < |moves| ==>
         && moves[i].src != moves[j].src
         && moves[i].dst != moves[j].dst
         && moves[i].dst != moves[j].src)
  }

  lemma ScheduleIsWellOrdered(beat: Beat)
    ensures WellOrdered(TransitionMoves(beat))
  {
    match beat case P1 => case P2 => case P3 => case P4 =>
  }

  /** The station whose part a move list delivers to `st`. */
  function FeederOf(moves: seq<Move>, st: Station): Option<Station> {
    if moves == [] then None
    else if moves[0].dst == st then Some(moves[0].src)
    else FeederOf(moves[1..], st)
  }

  predicate Leaves(moves: seq<Move>, st: Station) {
    exists m :: m in moves && m.src == st
  }

  function At(occupancy: map<Station, PartId>, st: Station): Option<PartId> {
    if st in occupancy then Some(occupancy[st]) else None
  }

  /** The part a station offers before anything moves. */
  function Offered(l: Layout, st: Station): Option<PartId> {
    if st == IN then (if l.inQueue == [] then None else Some(l.inQueue[0]))
    else if st in l.occupancy then Some(l.occupancy[st])
    else None
  }

  /** Who stands at `st` once every move has happened at the same instant: the
      part offered by its feeder, else its old occupant unless that one left. */
  function After(l: Layout, moves: seq<Move>, st: Station): Option<PartId> {
    var feeder := FeederOf(moves, st);
    if feeder.Some? && Offered(l, feeder.value).Some? then Offered(l, feeder.value)
    else if Leaves(moves, st) || st !in l.occupancy then None
    else Some(l.occupancy[st])
  }

  function Outgoing(l: Layout, moves: seq<Move>): Option<PartId> {
    var feeder := FeederOf(moves, OUT);
    if feeder.Some? then Offered(l, feeder.value) else None
  }

  predicate IsSimultaneousShift(l: Layout, moves: seq<Move>, r: Layout) {
    && (forall st :: st != OUT && st != IN ==>
         At(r.occupancy, st) == After(l, moves, st))
    && At(r.occupancy, IN) == At(l.occupancy, IN)
    && At(r.occupancy, OUT) == At(l.occupancy, OUT)
    && r.inQueue == (if Leaves(moves, IN) && l.inQueue != [] then l.inQueue[1..] else l.inQueue)
    && r.parts == (if Outgoing(l, moves).Some? then l.parts - {Outgoing(l, moves).value} else l.parts)
  }

  lemma {:induction false} FeederIsMove(moves: seq<Move>, st: Station)
    ensures FeederOf(moves, st).Some? ==> Move(FeederOf(moves, st).value, st) in moves
    ensures FeederOf(moves, st).None? ==> forall m :: m in moves ==> m.dst != st
  {
    if moves != [] && moves[0].dst != st {
      FeederIsMove(moves[1..], st);
      assert forall m :: m in moves ==> m == moves[0] || m in moves[1..];
    }
  }

  /** A later source offers the same part before and after the first move. */
  lemma OfferUndisturbed(l: Layout, moves: seq<Move>, st: Station)
    requires WellOrdered(moves) && moves != []
    ensures
      var feeder := FeederOf(moves[1..], st);
      feeder.Some? ==> Offered(ApplyMove(l, moves[0]), feeder.value) == Offered(l, feeder.value)
  {
    FeederIsMove(moves[1..], st);
  }

  lemma AfterCons(l: Layout, moves: seq<Move>, st: Station)
    requires WellOrdered(moves) && moves != []
    requires st != IN && st != OUT
    ensures After(ApplyMove(l, moves[0]), moves[1..], st) == After(l, moves, st)
  {
    var m, rest := moves[0], moves[1..];
    FeederIsMove(rest, st);
    OfferUndisturbed(l, moves, st);
    assert Leaves(moves, st) <==> m.src == st || Leaves(rest, st) by {
      assert forall x :: x in moves <==> x == m || x in rest;
    }
  }

  /** In-order application of a well-ordered list is the simultaneous shift. */
  lemma {:induction false} InOrderIsSimultaneous(l: Layout, moves: seq<Move>)
    requires WellOrdered(moves)
    ensures IsSimultaneousShift(l, moves, ApplyMoves(l, moves))
    decreases |moves|
  {
    if moves != [] {
      var m, rest := moves[0], moves[1..];
      var next := ApplyMove(l, m);
      InOrderIsSimultaneous(next, rest);
      forall st | st != IN && st != OUT ensures After(next, rest, st) == After(l, moves, st) {
        AfterCons(l, moves, st);
      }
      assert Leaves(moves, IN) <==> m.src == IN || Leaves(rest, IN) by {
        assert forall x :: x in moves <==> x == m || x in rest;
      }
      FeederIsMove(rest, OUT);
      OfferUndisturbed(l, moves, OUT);
    }
  }

  /** Empty sources contribute nothing, so dropping them before the advance or
      skipping them during it gives the same layout. */
  lemma {:induction false} FilterIsSkip(s: LineState, l: Layout, moves: seq<Move>)
    requires WellOrdered(moves)
    requires forall st :: st in s.occupancy ==> s.occupancy[st] != EmptyId
    requires forall m :: m in moves && !IsLive(s, m) ==> Offered(l, m.src).None?
    ensures ApplyMoves(l, Filter(s, moves)) == ApplyMoves(l, moves)
    decreases |moves|
  {
    if moves != [] {
      var m, rest := moves[0], moves[1..];
      assert forall x :: x in rest ==> x in moves;
      if IsLive(s, m) {
        FilterIsSkip(s, ApplyMove(l, m), rest);
        assert Filter(s, moves) == [m] + Filter(s, rest);
        assert Filter(s, moves)[1..] == Filter(s, rest);
      } else {
        assert m in moves;
        FilterIsSkip(s, l, rest);
        assert Filter(s, moves) == Filter(s, rest);
      }
    }
  }

  /** A destination that is sensed occupied and that no move of the list vacates. */
  predicate Collides(moves: seq<Move>, occupied: set<Station>) {
    exists m :: m in moves && m.dst != OUT && m.dst in occupied && !Leaves(moves, m.dst)
  }

  predicate UnderFlashed(s: LineState, cfg: Config, m: Move) {
    && (m.src == F1 || m.src == F2)
    && s.PartAt(m.src).Some?
    && !MayLeaveFan(s.PartAt(m.src).value, cfg)
  }

  /** The walk passes exactly the lists that neither collide nor take an
      under-flashed part from a fan. */
  lemma {:induction false} WalkRejectsExactly(s: LineState, cfg: Config, moves: seq<Move>, occupied: set<Station>)
    requires WellOrdered(moves)
    ensures WalkBlocked(s, cfg, moves, occupied).None? <==>
      !Collides(moves, occupied) && (forall m :: m in moves ==> !UnderFlashed(s, cfg, m))
  {
    if moves != [] {
      var m, rest := moves[0], moves[1..];
      var vacated := occupied - {m.src};
      var next := if m.dst == OUT then vacated else vacated + {m.dst};
      WalkRejectsExactly(s, cfg, rest, next);
      assert forall x :: x in moves <==> x == m || x in rest;
      assert Leaves(moves, m.dst) ==> m.src == m.dst || Leaves(rest, m.dst);
      assert !Leaves(moves, m.dst);
      var headCollides := m.dst != OUT && m.dst in vacated;
      if headCollides {
        assert m.dst in occupied && Collides(moves, occupied);
      } else {
        forall x | x in rest && x.dst != OUT
          ensures x.dst in next && !Leaves(rest, x.dst) <==> x.dst in occupied && !Leaves(moves, x.dst)
        {
          assert Leaves(moves, x.dst) <==> m.src == x.dst || Leaves(rest, x.dst);
        }
        assert Collides(rest, next) <==> Collides(moves, occupied) by {
          if Collides(moves, occupied) {
            var c :| c in moves && c.dst != OUT && c.dst in occupied && !Leaves(moves, c.dst);
            assert c != m;
            assert c in rest;
          }
          if Collides(rest, next) {
            var c :| c in rest && c.dst != OUT && c.dst in next && !Leaves(rest, c.dst);
            assert c in moves;
          }
        }
        assert UnderFlashed(s, cfg, m) <==>
          (m.src == F1 || m.src == F2) && s.PartAt(m.src).Some? && !MayLeaveFan(s.PartAt(m.src).value, cfg);
      }
    }
  }
}

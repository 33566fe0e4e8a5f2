/** The period-4 interleaved schedule as constant tables. */
module Schedule {
  import opened Model

  datatype BeatSpec = BeatSpec(
    role: Role,
    coat: nat,
    cleanGun: bool,
    f1Fan: bool,
    f2Fan: bool)

  function Spec(beat: Beat): BeatSpec {
    match beat
    case P1 => BeatSpec(LEAD, 1, false, false, true)
    case P2 => BeatSpec(TRAIL, 1, false, false, true)
    case P3 => BeatSpec(LEAD, 2, true, true, false)
    case P4 => BeatSpec(TRAIL, 2, true, false, true)
  }

  function NextBeat(beat: Beat): Beat {
    match beat
    case P1 => P2
    case P2 => P3
    case P3 => P4
    case P4 => P1
  }

  function TransitionDirection(beat: Beat): Direction {
    if beat == P2 then Upstream else Downstream
  }

  /** Ordered so that a destination is vacated before it is filled. */
  function TransitionMoves(beat: Beat): seq<Move> {
    match beat
    case P1 => [Move(F2, OUT), Move(O, F2), Move(F1, O)]
    case P2 => [Move(O, F1), Move(F2, O)]
    case P3 => [Move(O, F2), Move(F1, O), Move(IN, F1)]
    case P4 => [Move(F2, OUT), Move(O, F2), Move(F1, O), Move(IN, F1)]
  }
}

/** Flash-time accounting: a counter advances only while the part stands at a
    fan station whose fan is on. */
module Timers {
  import opened Model

  predicate FlashComplete(part: PartState, cfg: Config) {
    part.ActiveFlash() >= cfg.flashSeconds
  }

  /** Coat 2 requires a complete flash 1. Never called by the running machine. */
  predicate MayReceiveCoat2(part: PartState, cfg: Config) {
    part.coats == 1 && part.flash1 >= cfg.flashSeconds
  }

  /** Outfeed requires every coat and a complete flash 2. Never called either. */
  predicate MayOutfeed(part: PartState, cfg: Config) {
    part.coats >= cfg.coats && part.flash2 >= cfg.flashSeconds
  }

  predicate MayLeaveFan(part: PartState, cfg: Config) {
    part.coats == 0 || FlashComplete(part, cfg)
  }

  /** Bank `dt` on the active flash; wetness clears when that flash completes. */
  function Bank(part: PartState, dt: real, cfg: Config): PartState {
    var advanced := part.WithFlashAdvanced(dt);
    if advanced.isWet && FlashComplete(advanced, cfg) then advanced.(isWet := false) else advanced
  }

  /** A staged (uncoated) part banks nothing, fan or no fan. */
  predicate Banks(s: LineState, station: Station) {
    s.FanOn(station) && s.PartAt(station).Some? && s.PartAt(station).value.coats != 0
  }

  function AdvanceAt(s: LineState, parts: map<PartId, PartState>, station: Station, dt: real, cfg: Config)
    : map<PartId, PartState>
  {
    if Banks(s, station) then
      var part := s.PartAt(station).value;
      parts[part.partId := Bank(part, dt, cfg)]
    else
      parts
  }

  function AdvanceFlash(s: LineState, dt: real, cfg: Config): map<PartId, PartState> {
    AdvanceAt(s, AdvanceAt(s, s.parts, F1, dt, cfg), F2, dt, cfg)
  }

  /** The part table is keyed by the ids the parts carry. */
  predicate KeyedById(parts: map<PartId, PartState>) {
    forall pid :: pid in parts ==> parts[pid].partId == pid
  }

  /** The fan stations form an unordered set, so the original loops over them in
      either order; the result does not depend on which. */
  method AdvanceFlashTimers(s: LineState, dt: real, cfg: Config, order: seq<Station>)
    returns (parts: map<PartId, PartState>)
    requires order == [F1, F2] || order == [F2, F1]
    requires KeyedById(s.parts)
    ensures parts == AdvanceFlash(s, dt, cfg)
    ensures parts.Keys == s.parts.Keys && KeyedById(parts)
    ensures forall pid :: pid in parts ==>
      parts[pid] == if IsBanking(s, pid) then Bank(s.parts[pid], dt, cfg) else s.parts[pid]
  {
    parts := s.parts;
    for i := 0 to |order|
      invariant parts.Keys == s.parts.Keys
      invariant i == 0 ==> parts == s.parts
      invariant i == 1 ==> parts == AdvanceAt(s, s.parts, order[0], dt, cfg)
      invariant i == 2 ==> parts == AdvanceAt(s, AdvanceAt(s, s.parts, order[0], dt, cfg), order[1], dt, cfg)
    {
      if s.FanOn(order[i]) {
        var part := s.PartAt(order[i]);
        if part.Some? && part.value.coats != 0 {
          parts := parts[part.value.partId := Bank(part.value, dt, cfg)];
        }
      }
    }
    AdvanceFlashPointwise(s, dt, cfg);
  }

  /** The part stands at a fan station that is banking for it. */
  predicate IsBanking(s: LineState, pid: PartId) {
    || (Banks(s, F1) && s.occupancy[F1] == pid)
    || (Banks(s, F2) && s.occupancy[F2] == pid)
  }

  lemma AdvanceFlashPointwise(s: LineState, dt: real, cfg: Config)
    requires KeyedById(s.parts)
    ensures AdvanceFlash(s, dt, cfg).Keys == s.parts.Keys
    ensures KeyedById(AdvanceFlash(s, dt, cfg))
    ensures forall pid :: pid in s.parts ==>
      AdvanceFlash(s, dt, cfg)[pid] == if IsBanking(s, pid) then Bank(s.parts[pid], dt, cfg) else s.parts[pid]
  {
    var first := AdvanceAt(s, s.parts, F1, dt, cfg);
    assert first.Keys == s.parts.Keys;
    assert AdvanceAt(s, first, F2, dt, cfg).Keys == s.parts.Keys;
  }
}

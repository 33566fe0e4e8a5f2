/** The flash ledger on every run, however the operator confirms the line: each
    counter is exactly the fan-on time of its coat, wetness means a flash still
    owed, and coat numbers only grow. */
module Ledger {
  import opened Model
  import opened Schedule
  import opened Timers
  import opened Guards
  import opened Machine
  import opened Runs

  /** Any sensors, any confirmed map, any beat; time alone may not run backwards. */
  predicate Forward(e: Event) {
    match e
    case Tick(f1, f2, inputs, id) => inputs.dt >= 0.0
    case Paused(f1, f2, dt) => dt >= 0.0
    case Acknowledge(sensors, confirmed, beat, id) => true
  }

  predicate IsAnyRun(cfg: Config, states: seq<LineState>, events: seq<Event>) {
    && |states| == |events| + 1
    && (forall k {:trigger events[k]} :: 0 <= k < |events| ==>
         Forward(events[k]) && states[k + 1] == React(cfg, states[k], events[k]).state)
  }

  // ------------------------------------------------- one event, one part

  /** The seconds this event banks for a part on coat `coat`. */
  function Credit(s: LineState, e: Event, pid: PartId, coat: nat): real
    requires coat == 1 || coat == 2
  {
    var counts := pid in s.parts && (if coat == 1 then s.parts[pid].coats == 1 else s.parts[pid].coats >= 2);
    match e
    case Tick(f1, f2, inputs, id) => if counts && IsBanking(Sensed(s, f1, f2), pid) then inputs.dt else 0.0
    case Paused(f1, f2, dt) => if counts && IsBanking(Sensed(s, f1, f2), pid) then dt else 0.0
    case Acknowledge(sensors, confirmed, beat, id) => 0.0
  }

  lemma {:induction false} ApplyOnlyRemoves(l: Layout, moves: seq<Move>)
    ensures var r := ApplyMoves(l, moves).parts;
      r.Keys <= l.parts.Keys && forall pid :: pid in r ==> r[pid] == l.parts[pid]
    decreases |moves|
  {
    if moves != [] {
      ApplyOnlyRemoves(ApplyMove(l, moves[0]), moves[1..]);
    }
  }

  /** A spray was emitted for the part and recorded at once. */
  predicate Sprayed(p: PartState, q: PartState, coat: nat) {
    p.coats < coat <= 2 && q == p.(coats := coat, isWet := true)
  }

  predicate Asked(intents: seq<Intent>, pid: PartId, coat: nat) {
    exists intent :: intent in intents && intent.SprayPart? && intent.part == pid && intent.coat == coat
  }

  predicate KeptOrSprayed(before: map<PartId, PartState>, r: StepResult, pid: PartId)
    requires pid in r.state.parts
  {
    && pid in before
    && (r.state.parts[pid] == before[pid]
        || (Asked(r.intents, pid, r.state.parts[pid].coats) && Sprayed(before[pid], r.state.parts[pid], r.state.parts[pid].coats)))
  }

  lemma BatchSprays(s: LineState, pid: PartId, id: nat)
    ensures Asked(WorkBatch(s, pid, id), pid, Spec(s.beat).coat)
  {
    var batch := WorkBatch(s, pid, id);
    var spray := batch[if Pausing(s) then 2 else 1];
    assert spray in batch && spray.SprayPart? && spray.part == pid && spray.coat == Spec(s.beat).coat;
  }

  /** The work phase leaves the table alone or records the coat it asks for. */
  lemma WorkRecords(o: LineState, sensors: Sensors, cfg: Config, id: nat)
    ensures
      var r := RobotWorkPhase(o, sensors, cfg, id);
      || r.state.parts == o.parts
      || (o.PartAt(O).Some? && o.PartAt(O).value.coats < Spec(o.beat).coat
          && r.intents == WorkBatch(o, o.PartAt(O).value.partId, id)
          && r.state.parts == o.parts[o.PartAt(O).value.partId := o.PartAt(O).value.(coats := Spec(o.beat).coat, isWet := true)])
  {
  }

  lemma WorkParts(o: LineState, sensors: Sensors, cfg: Config, id: nat, pid: PartId)
    requires KeyedById(o.parts)
    requires pid in RobotWorkPhase(o, sensors, cfg, id).state.parts
    ensures KeptOrSprayed(o.parts, RobotWorkPhase(o, sensors, cfg, id), pid)
  {
    var r := RobotWorkPhase(o, sensors, cfg, id);
    WorkRecords(o, sensors, cfg, id);
    if r.state.parts != o.parts {
      BatchSprays(o, o.PartAt(O).value.partId, id);
    }
  }

  lemma DispatchParts(o: LineState, sensors: Sensors, cfg: Config, id: nat, pid: PartId)
    requires KeyedById(o.parts)
    requires pid in Dispatch(o, sensors, cfg, id).state.parts
    ensures KeptOrSprayed(o.parts, Dispatch(o, sensors, cfg, id), pid)
  {
    if o.phase == RobotWork {
      WorkParts(o, sensors, cfg, id, pid);
    } else if o.phase == Moving {
      MovingParts(o, sensors, cfg, id, pid);
    } else {
      QuietParts(o, sensors, cfg, id);
    }
  }

  lemma QuietParts(o: LineState, sensors: Sensors, cfg: Config, id: nat)
    requires o.phase != RobotWork && o.phase != Moving
    ensures Dispatch(o, sensors, cfg, id).state.parts == o.parts
  {
  }

  lemma MovingParts(o: LineState, sensors: Sensors, cfg: Config, id: nat, pid: PartId)
    requires pid in MovingPhase(o, sensors, cfg, id).state.parts
    ensures pid in o.parts && MovingPhase(o, sensors, cfg, id).state.parts[pid] == o.parts[pid]
  {
    if o.inFlight != [] {
      ApplyOnlyRemoves(LayoutOf(o), o.inFlight);
    } else {
      StartingParts(o, sensors, cfg, id);
    }
  }

  lemma StartingParts(o: LineState, sensors: Sensors, cfg: Config, id: nat)
    requires o.inFlight == []
    ensures MovingPhase(o, sensors, cfg, id).state.parts == o.parts
  {
  }

  lemma StepParts(cfg: Config, u: LineState, inputs: Inputs, id: nat, pid: PartId)
    requires KeyedById(Observed(u, inputs, cfg).parts)
    requires pid in Step(u, inputs, cfg, id).state.parts
    ensures KeptOrSprayed(Observed(u, inputs, cfg).parts, Step(u, inputs, cfg, id), pid)
  {
    var o := Observed(u, inputs, cfg);
    StepCases(cfg, u, inputs, id);
    if LayoutOf(Step(u, inputs, cfg, id).state) != LayoutOf(o) {
      DispatchParts(o, inputs.sensors, cfg, id, pid);
    } else {
      assert LayoutOf(o).parts == LayoutOf(Step(u, inputs, cfg, id).state).parts;
    }
  }

  lemma ResumeParts(s: LineState, sensors: Sensors, confirmed: Option<map<Station, PartId>>, beat: Option<Beat>, id: nat, pid: PartId)
    requires pid in Resume(s, sensors, confirmed, beat, id).state.parts
    ensures KeptOrSprayed(s.parts, Resume(s, sensors, confirmed, beat, id), pid)
  {
    ReentryParts(s, if confirmed.Some? then confirmed.value else s.occupancy, if beat.Some? then beat.value else s.beat);
  }

  lemma ReentryParts(s: LineState, occupancy: map<Station, PartId>, beat: Beat)
    ensures var r := Reentry(s, occupancy, beat).0.parts;
      r.Keys <= s.parts.Keys && forall pid :: pid in r ==> r[pid] == s.parts[pid]
  {
    var projected := Shifted(s.(fault := None), s.inFlight);
    ApplyOnlyRemoves(LayoutOf(s.(fault := None)), s.inFlight);
    assert projected.parts == ApplyMoves(LayoutOf(s.(fault := None)), s.inFlight).parts;
  }

  /** After banking, an event changes a part only by spraying it or removing it. */
  lemma ReactParts(cfg: Config, s: LineState, e: Event, pid: PartId)
    requires KeyedById(s.parts)
    requires pid in React(cfg, s, e).state.parts
    ensures KeptOrSprayed(Banked(cfg, s, e), React(cfg, s, e), pid)
  {
    match e
    case Tick(f1, f2, inputs, id) =>
      AdvanceFlashPointwise(Sensed(s, f1, f2), inputs.dt, cfg);
      StepParts(cfg, Sensed(s, f1, f2), inputs, id, pid);
    case Paused(f1, f2, dt) =>
    case Acknowledge(sensors, confirmed, beat, id) => ResumeParts(s, sensors, confirmed, beat, id, pid);
  }

  lemma ReactKeyed(cfg: Config, s: LineState, e: Event)
    requires KeyedById(s.parts)
    ensures KeyedById(Banked(cfg, s, e)) && Banked(cfg, s, e).Keys == s.parts.Keys
    ensures KeyedById(React(cfg, s, e).state.parts)
    ensures React(cfg, s, e).state.parts.Keys <= s.parts.Keys
  {
    if !e.Acknowledge? {
      AdvanceFlashPointwise(Sensed(s, e.f1, e.f2), if e.Tick? then e.inputs.dt else e.dt, cfg);
    }
    forall pid | pid in React(cfg, s, e).state.parts
      ensures pid in s.parts && React(cfg, s, e).state.parts[pid].partId == pid
    {
      ReactParts(cfg, s, e, pid);
    }
  }

  lemma BankedCredit(cfg: Config, s: LineState, e: Event, pid: PartId)
    requires KeyedById(s.parts) && pid in s.parts && IsTidy(s.parts[pid], cfg) && Forward(e)
    ensures pid in Banked(cfg, s, e)
    ensures
      var p, q := s.parts[pid], Banked(cfg, s, e)[pid];
      && q.coats == p.coats && IsTidy(q, cfg)
      && q.flash1 == p.flash1 + Credit(s, e, pid, 1) && q.flash2 == p.flash2 + Credit(s, e, pid, 2)
  {
    if !e.Acknowledge? {
      AdvanceFlashPointwise(Sensed(s, e.f1, e.f2), if e.Tick? then e.inputs.dt else e.dt, cfg);
    }
  }

  // ------------------------------------------------------------ invariant

  /** A counter belongs to its coat, and wet means coated with its flash owed. */
  predicate IsTidy(p: PartState, cfg: Config) {
    && p.flash1 >= 0.0 && p.flash2 >= 0.0
    && (p.coats <= 1 ==> p.flash2 == 0.0)
    && (p.coats == 0 ==> p.flash1 == 0.0)
    && (p.isWet <==> p.coats > 0 && p.ActiveFlash() < cfg.flashSeconds)
  }

  predicate AllTidy(s: LineState, cfg: Config) {
    KeyedById(s.parts) && forall pid :: pid in s.parts ==> IsTidy(s.parts[pid], cfg)
  }

  /** The ledger of one surviving part over one event: exactly its credit on the
      counters, and a larger coat number only if a spray of that coat was asked for. */
  predicate Booked(p: PartState, q: PartState, credit1: real, credit2: real, intents: seq<Intent>, pid: PartId) {
    && q.flash1 == p.flash1 + credit1
    && q.flash2 == p.flash2 + credit2
    && q.coats >= p.coats
    && (q.coats > p.coats ==> Asked(intents, pid, q.coats))
  }

  lemma BookPart(cfg: Config, p: PartState, banked: PartState, q: PartState, intents: seq<Intent>, pid: PartId, c1: real, c2: real)
    requires cfg.flashSeconds > 0.0 && IsTidy(banked, cfg) && banked.coats == p.coats
    requires banked.flash1 == p.flash1 + c1 && banked.flash2 == p.flash2 + c2
    requires q == banked || (Asked(intents, pid, q.coats) && Sprayed(banked, q, q.coats))
    ensures Booked(p, q, c1, c2, intents, pid) && IsTidy(q, cfg)
  {
  }

  lemma EventBooks(cfg: Config, s: LineState, e: Event, pid: PartId)
    requires AllTidy(s, cfg) && Forward(e) && cfg.flashSeconds > 0.0
    requires pid in React(cfg, s, e).state.parts
    ensures pid in s.parts
    ensures Booked(s.parts[pid], React(cfg, s, e).state.parts[pid], Credit(s, e, pid, 1), Credit(s, e, pid, 2),
                   React(cfg, s, e).intents, pid)
    ensures IsTidy(React(cfg, s, e).state.parts[pid], cfg)
  {
    ReactParts(cfg, s, e, pid);
    ReactKeyed(cfg, s, e);
    BankedCredit(cfg, s, e, pid);
    BookPart(cfg, s.parts[pid], Banked(cfg, s, e)[pid], React(cfg, s, e).state.parts[pid],
             React(cfg, s, e).intents, pid, Credit(s, e, pid, 1), Credit(s, e, pid, 2));
  }

  /** Every event, whatever the operator confirms, keeps every part tidy. */
  lemma EventKeepsTidy(cfg: Config, s: LineState, e: Event)
    requires AllTidy(s, cfg) && Forward(e) && cfg.flashSeconds > 0.0
    ensures AllTidy(React(cfg, s, e).state, cfg)
  {
    ReactKeyed(cfg, s, e);
    forall pid | pid in React(cfg, s, e).state.parts ensures IsTidy(React(cfg, s, e).state.parts[pid], cfg) {
      EventBooks(cfg, s, e, pid);
    }
  }

  // ----------------------------------------------------------- whole runs

  /** Seconds credited to a part's coat over the first k events. */
  function Total(states: seq<LineState>, events: seq<Event>, k: nat, pid: PartId, coat: nat): real
    requires k <= |events| < |states| && (coat == 1 || coat == 2)
  {
    if k == 0 then 0.0 else Total(states, events, k - 1, pid, coat) + Credit(states[k - 1], events[k - 1], pid, coat)
  }

  lemma {:induction false} RunTidy(cfg: Config, states: seq<LineState>, events: seq<Event>, k: nat)
    requires k < |states| && IsAnyRun(cfg, states, events) && AllTidy(states[0], cfg) && cfg.flashSeconds > 0.0
    ensures AllTidy(states[k], cfg)
  {
    if k > 0 {
      RunTidy(cfg, states, events, k - 1);
      EventKeepsTidy(cfg, states[k - 1], events[k - 1]);
    }
  }

  /** One event of a run, booked. */
  lemma RunBooks(cfg: Config, states: seq<LineState>, events: seq<Event>, k: nat, pid: PartId)
    requires k < |events| && IsAnyRun(cfg, states, events) && AllTidy(states[0], cfg) && cfg.flashSeconds > 0.0
    requires pid in states[k + 1].parts
    ensures pid in states[k].parts
    ensures Booked(states[k].parts[pid], states[k + 1].parts[pid],
                   Credit(states[k], events[k], pid, 1), Credit(states[k], events[k], pid, 2),
                   React(cfg, states[k], events[k]).intents, pid)
    ensures IsTidy(states[k + 1].parts[pid], cfg)
  {
    RunTidy(cfg, states, events, k);
    EventBooks(cfg, states[k], events[k], pid);
  }

  /** The exact ledger, on every run: a part still known after k events holds on
      each counter what it started with plus the fan-on seconds of that coat, and
      is wet exactly while its active flash is owed. */
  lemma {:induction false} ExactLedger(cfg: Config, states: seq<LineState>, events: seq<Event>, k: nat, pid: PartId)
    requires k < |states| && IsAnyRun(cfg, states, events) && AllTidy(states[0], cfg) && cfg.flashSeconds > 0.0
    requires pid in states[k].parts
    ensures pid in states[0].parts
    ensures states[k].parts[pid].flash1 == states[0].parts[pid].flash1 + Total(states, events, k, pid, 1)
    ensures states[k].parts[pid].flash2 == states[0].parts[pid].flash2 + Total(states, events, k, pid, 2)
    ensures states[k].parts[pid].coats >= states[0].parts[pid].coats
    ensures IsTidy(states[k].parts[pid], cfg)
  {
    if k > 0 {
      RunBooks(cfg, states, events, k - 1, pid);
      ExactLedger(cfg, states, events, k - 1, pid);
    }
  }

  lemma {:induction false} CoatsGrow(cfg: Config, states: seq<LineState>, events: seq<Event>, i: nat, k: nat, pid: PartId)
    requires i <= k < |states| && IsAnyRun(cfg, states, events) && AllTidy(states[0], cfg) && cfg.flashSeconds > 0.0
    requires pid in states[k].parts
    ensures pid in states[i].parts && states[i].parts[pid].coats <= states[k].parts[pid].coats
    decreases k - i
  {
    if i < k {
      var before, after := states[k - 1], states[k];
      RunBooks(cfg, states, events, k - 1, pid);
      assert pid in before.parts && before.parts[pid].coats <= after.parts[pid].coats;
      CoatsGrow(cfg, states, events, i, k - 1, pid);
    }
  }

  /** An emitted spray names a part that has fewer coats, and is recorded at once. */
  lemma SprayRecorded(cfg: Config, s: LineState, e: Event, pid: PartId, coat: nat)
    requires AllTidy(s, cfg) && Forward(e) && cfg.flashSeconds > 0.0
    requires Asked(React(cfg, s, e).intents, pid, coat)
    ensures pid in s.parts && s.parts[pid].coats < coat
    ensures pid in React(cfg, s, e).state.parts && React(cfg, s, e).state.parts[pid].coats == coat
  {
    ReactKeyed(cfg, s, e);
    if e.Tick? {
      var u := Sensed(s, e.f1, e.f2);
      var o := Observed(u, e.inputs, cfg);
      assert KeyedById(o.parts) && o.parts == Banked(cfg, s, e);
      StepSprays(cfg, u, e.inputs, e.id, pid, coat);
      BankedCredit(cfg, s, e, pid);
    }
  }

  lemma WorkSprays(o: LineState, sensors: Sensors, cfg: Config, id: nat, pid: PartId, coat: nat)
    requires KeyedById(o.parts)
    requires Asked(RobotWorkPhase(o, sensors, cfg, id).intents, pid, coat)
    ensures
      var t := RobotWorkPhase(o, sensors, cfg, id).state;
      pid in o.parts && o.parts[pid].coats < coat && pid in t.parts && t.parts[pid].coats == coat
  {
  }

  lemma OnlyWorkSprays(u: LineState, inputs: Inputs, cfg: Config, id: nat, pid: PartId, coat: nat)
    requires Asked(Step(u, inputs, cfg, id).intents, pid, coat)
    ensures Step(u, inputs, cfg, id) == RobotWorkPhase(Observed(u, inputs, cfg), inputs.sensors, cfg, id)
  {
  }

  lemma StepSprays(cfg: Config, u: LineState, inputs: Inputs, id: nat, pid: PartId, coat: nat)
    requires KeyedById(Observed(u, inputs, cfg).parts)
    requires Observed(u, inputs, cfg).parts.Keys == u.parts.Keys
    requires Asked(Step(u, inputs, cfg, id).intents, pid, coat)
    ensures
      var o := Observed(u, inputs, cfg);
      var t := Step(u, inputs, cfg, id).state;
      pid in o.parts && o.parts[pid].coats < coat && pid in u.parts && pid in t.parts && t.parts[pid].coats == coat
  {
    OnlyWorkSprays(u, inputs, cfg, id, pid, coat);
    WorkSprays(Observed(u, inputs, cfg), inputs.sensors, cfg, id, pid, coat);
  }

  /** The intents each event of the run emitted. */
  predicate IsLogged(cfg: Config, states: seq<LineState>, events: seq<Event>, log: seq<seq<Intent>>) {
    && |log| == |events| < |states|
    && forall k {:trigger events[k]} :: 0 <= k < |events| ==> log[k] == React(cfg, states[k], events[k]).intents
  }

  lemma RunSprays(
    cfg: Config, states: seq<LineState>, events: seq<Event>, log: seq<seq<Intent>>, k: nat, pid: PartId, coat: nat)
    requires k < |events| && IsAnyRun(cfg, states, events) && AllTidy(states[0], cfg) && cfg.flashSeconds > 0.0
    requires IsLogged(cfg, states, events, log) && Asked(log[k], pid, coat)
    ensures pid in states[k].parts && states[k].parts[pid].coats < coat
    ensures pid in states[k + 1].parts && states[k + 1].parts[pid].coats == coat
  {
    RunTidy(cfg, states, events, k);
    SprayRecorded(cfg, states[k], events[k], pid, coat);
  }

  /** No part is sprayed twice with one coat, whatever recoveries lie between: of
      two sprays the later has the higher coat number. */
  lemma CoatsSprayedOnce(
    cfg: Config, states: seq<LineState>, events: seq<Event>, log: seq<seq<Intent>>,
    i: nat, k: nat, pid: PartId, c: nat, d: nat)
    requires i < k < |events| && IsAnyRun(cfg, states, events) && AllTidy(states[0], cfg) && cfg.flashSeconds > 0.0
    requires IsLogged(cfg, states, events, log)
    requires Asked(log[i], pid, c) && Asked(log[k], pid, d)
    ensures c < d
  {
    RunSprays(cfg, states, events, log, i, pid, c);
    RunSprays(cfg, states, events, log, k, pid, d);
    CoatsGrow(cfg, states, events, i + 1, k, pid);
  }
}

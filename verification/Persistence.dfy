/** Crash persistence: the snapshot format, its round trip, the restore rule, and
    the store that saves structural changes at once and timer churn at intervals. */
module Persistence {
  import opened Model
  import opened Timers

  // -------------------------------------------------------------- snapshot

  datatype PartRecord = PartRecord(
    product: string,
    role: string,
    pairIndex: int,
    coats: nat,
    flash1: real,
    flash2: real,
    isWet: bool)

  /** What is written to disk: enumerations as their names. */
  datatype Snapshot = Snapshot(
    version: int,
    declared: int,
    beat: string,
    phase: string,
    pairIndex: int,
    fault: Option<Reason>,
    faultPhase: Option<string>,
    f1Fan: string,
    f2Fan: string,
    shutter: string,
    occupancy: map<string, PartId>,
    inQueue: seq<PartId>,
    parts: map<PartId, PartRecord>)

  const SchemaVersion := 1

  const StationNames: set<string> := {"IN", "F1", "O", "F2", "OUT"}

  function StationName(st: Station): string {
    match st case IN => "IN" case F1 => "F1" case O => "O" case F2 => "F2" case OUT => "OUT"
  }

  function StationNamed(name: string): Station {
    if name == "IN" then IN else if name == "F1" then F1 else if name == "O" then O else if name == "F2" then F2 else OUT
  }

  function BeatName(b: Beat): string {
    match b case P1 => "P1" case P2 => "P2" case P3 => "P3" case P4 => "P4"
  }

  function BeatNamed(name: string): Option<Beat> {
    if name == "P1" then Some(P1) else if name == "P2" then Some(P2)
    else if name == "P3" then Some(P3) else if name == "P4" then Some(P4) else None
  }

  function PhaseName(p: Phase): string {
    match p
    case RobotWork => "robot_work"
    case AwaitGuards => "await_guards"
    case ShutterOpen => "shutter_open"
    case Moving => "moving"
    case ShutterClose => "shutter_close"
    case SetFans => "set_fans"
    case Faulted => "faulted"
  }

  function PhaseNamed(name: string): Option<Phase> {
    if name == "robot_work" then Some(RobotWork)
    else if name == "await_guards" then Some(AwaitGuards)
    else if name == "shutter_open" then Some(ShutterOpen)
    else if name == "moving" then Some(Moving)
    else if name == "shutter_close" then Some(ShutterClose)
    else if name == "set_fans" then Some(SetFans)
    else if name == "faulted" then Some(Faulted)
    else None
  }

  function FanName(on: bool): string {
    if on then "on" else "off"
  }

  function FanNamed(name: string): Option<bool> {
    if name == "on" then Some(true) else if name == "off" then Some(false) else None
  }

  function ShutterName(s: Shutter): string {
    match s case Open => "open" case Closed => "closed" case Travelling => "moving" case Unknown => "unknown"
  }

  function ShutterNamed(name: string): Option<Shutter> {
    if name == "open" then Some(Open) else if name == "closed" then Some(Closed)
    else if name == "moving" then Some(Travelling) else if name == "unknown" then Some(Unknown) else None
  }

  function RoleName(r: Role): string {
    match r case LEAD => "lead" case TRAIL => "trail"
  }

  function RoleNamed(name: string): Option<Role> {
    if name == "lead" then Some(LEAD) else if name == "trail" then Some(TRAIL) else None
  }

  function ProductName(p: Product): string {
    match p case CUBE => "cube" case BROWSER => "browser"
  }

  function ProductNamed(name: string): Option<Product> {
    if name == "cube" then Some(CUBE) else if name == "browser" then Some(BROWSER) else None
  }

  // ------------------------------------------------------------ serializing

  function RecordOf(p: PartState): PartRecord {
    PartRecord(ProductName(p.product), RoleName(p.role), p.pairIndex, p.coats, p.flash1, p.flash2, p.isWet)
  }

  function WriteOccupancy(occupancy: map<Station, PartId>): map<string, PartId> {
    map name | name in StationNames && StationNamed(name) in occupancy :: occupancy[StationNamed(name)]
  }

  function WriteParts(parts: map<PartId, PartState>): map<PartId, PartRecord> {
    map pid | pid in parts :: RecordOf(parts[pid])
  }

  function Serialize(s: LineState, declared: int): Snapshot {
    Snapshot(
      SchemaVersion, declared, BeatName(s.beat), PhaseName(s.phase), s.pairIndex, s.fault,
      if s.faultPhase.Some? then Some(PhaseName(s.faultPhase.value)) else None,
      FanName(s.f1Fan), FanName(s.f2Fan), ShutterName(s.shutter),
      WriteOccupancy(s.occupancy), s.inQueue, WriteParts(s.parts))
  }

  predicate ReadableRecord(r: PartRecord) {
    ProductNamed(r.product).Some? && RoleNamed(r.role).Some?
  }

  /** Every name in the snapshot is one the program knows. */
  predicate Readable(d: Snapshot) {
    && d.version == SchemaVersion
    && BeatNamed(d.beat).Some? && PhaseNamed(d.phase).Some?
    && (d.faultPhase.Some? ==> PhaseNamed(d.faultPhase.value).Some?)
    && FanNamed(d.f1Fan).Some? && FanNamed(d.f2Fan).Some? && ShutterNamed(d.shutter).Some?
    && d.occupancy.Keys <= StationNames
    && (forall pid :: pid in d.parts ==> ReadableRecord(d.parts[pid]))
  }

  function PartFrom(pid: PartId, r: PartRecord): PartState
    requires ReadableRecord(r)
  {
    PartState(pid, ProductNamed(r.product).value, RoleNamed(r.role).value, r.pairIndex, r.coats, r.flash1, r.flash2, r.isWet)
  }

  function ReadOccupancy(stored: map<string, PartId>): map<Station, PartId> {
    map st: Station | StationName(st) in stored :: stored[StationName(st)]
  }

  function ReadParts(stored: map<PartId, PartRecord>): map<PartId, PartState>
    requires forall pid :: pid in stored ==> ReadableRecord(stored[pid])
  {
    map pid | pid in stored :: PartFrom(pid, stored[pid])
  }

  /** None where the original raises. What is not stored comes back at its default. */
  function Deserialize(d: Snapshot): Option<(LineState, int)> {
    if !Readable(d) then None
    else
      Some((
        LineState(
          ReadParts(d.parts), ReadOccupancy(d.occupancy),
          d.inQueue, [], [], BeatNamed(d.beat).value, d.pairIndex, PhaseNamed(d.phase).value,
          FanNamed(d.f1Fan).value, FanNamed(d.f2Fan).value, ShutterNamed(d.shutter).value, false, d.fault,
          if d.faultPhase.Some? then PhaseNamed(d.faultPhase.value) else None),
        d.declared))
  }

  /** The state without the work that died with the process. */
  function Erased(s: LineState): LineState {
    s.(pending := [], inFlight := [], sprayBurstActive := false)
  }

  lemma StationNamesInvert(st: Station)
    ensures StationName(st) in StationNames && StationNamed(StationName(st)) == st
  {
  }

  lemma OccupancyRoundTrip(occupancy: map<Station, PartId>)
    ensures ReadOccupancy(WriteOccupancy(occupancy)) == occupancy
    ensures WriteOccupancy(occupancy).Keys <= StationNames
  {
    forall st: Station ensures StationName(st) in StationNames && StationNamed(StationName(st)) == st {
      StationNamesInvert(st);
    }
  }

  lemma RecordReads(pid: PartId, p: PartState)
    ensures ReadableRecord(RecordOf(p)) && PartFrom(pid, RecordOf(p)) == p.(partId := pid)
  {
  }

  /** The same table, each record filed under its key. */
  function Rekeyed(parts: map<PartId, PartState>): map<PartId, PartState> {
    map pid | pid in parts :: parts[pid].(partId := pid)
  }

  lemma PartsRoundTrip(parts: map<PartId, PartState>)
    ensures forall pid :: pid in WriteParts(parts) ==> ReadableRecord(WriteParts(parts)[pid])
    ensures ReadParts(WriteParts(parts)) == Rekeyed(parts)
  {
    forall pid | pid in parts
      ensures ReadableRecord(RecordOf(parts[pid])) && PartFrom(pid, RecordOf(parts[pid])) == parts[pid].(partId := pid)
    {
      RecordReads(pid, parts[pid]);
    }
  }

  lemma RekeyedIsSame(parts: map<PartId, PartState>)
    ensures Rekeyed(parts) == parts <==> KeyedById(parts)
  {
    assert Rekeyed(parts).Keys == parts.Keys;
    assert forall pid :: pid in parts ==> Rekeyed(parts)[pid] == parts[pid].(partId := pid);
    if Rekeyed(parts) == parts {
      forall pid | pid in parts ensures parts[pid].partId == pid {
        assert Rekeyed(parts)[pid].partId == pid;
      }
    }
  }

  lemma BeatRoundTrip(b: Beat)
    ensures BeatNamed(BeatName(b)) == Some(b)
  {
  }

  lemma PhaseRoundTrip(p: Phase)
    ensures PhaseNamed(PhaseName(p)) == Some(p)
  {
  }

  lemma DeviceRoundTrip(on: bool, shutter: Shutter)
    ensures FanNamed(FanName(on)) == Some(on) && ShutterNamed(ShutterName(shutter)) == Some(shutter)
  {
  }

  lemma NamesRoundTrip(s: LineState)
    ensures BeatNamed(BeatName(s.beat)) == Some(s.beat) && PhaseNamed(PhaseName(s.phase)) == Some(s.phase)
    ensures s.faultPhase.Some? ==> PhaseNamed(PhaseName(s.faultPhase.value)) == s.faultPhase
    ensures FanNamed(FanName(s.f1Fan)) == Some(s.f1Fan) && FanNamed(FanName(s.f2Fan)) == Some(s.f2Fan)
    ensures ShutterNamed(ShutterName(s.shutter)) == Some(s.shutter)
  {
    BeatRoundTrip(s.beat);
    PhaseRoundTrip(s.phase);
    if s.faultPhase.Some? { PhaseRoundTrip(s.faultPhase.value); }
    DeviceRoundTrip(s.f1Fan, s.shutter);
    DeviceRoundTrip(s.f2Fan, s.shutter);
  }

  /** What was written is always readable, and reads back as the state without the
      dead work, each record under its key. */
  lemma ReadsBack(s: LineState, declared: int)
    ensures Deserialize(Serialize(s, declared)) == Some((Erased(s).(parts := Rekeyed(s.parts)), declared))
  {
    OccupancyRoundTrip(s.occupancy);
    PartsRoundTrip(s.parts);
    NamesRoundTrip(s);
  }

  /** The round trip is exact but for the dead work precisely when every record is
      filed under its own id: the id itself is not stored. */
  lemma RoundTrip(s: LineState, declared: int)
    ensures Deserialize(Serialize(s, declared)) == Some((Erased(s), declared)) <==> KeyedById(s.parts)
  {
    ReadsBack(s, declared);
    RekeyedIsSame(s.parts);
  }

  // -------------------------------------------------------------- restoring

  predicate NothingOnLine(s: LineState) {
    s.parts == map[] && s.occupancy == map[] && s.inQueue == []
  }

  /** A restored line with anything on it starts faulted, its phase remembered. */
  function AsRestored(s0: LineState): LineState {
    var s := s0.(pending := [], inFlight := []);
    if NothingOnLine(s) then s.(phase := RobotWork, fault := None, faultPhase := None)
    else if s.fault.Some? then s.(phase := Faulted)
    else s.(faultPhase := Some(s.phase), phase := Faulted, fault := Some(Restarted))
  }

  // ------------------------------------------------------------------ store

  /** All that forces an immediate save: everything but the ticking timers. */
  datatype StructuralKey = StructuralKey(
    declared: int,
    beat: Beat,
    phase: Phase,
    fault: Option<Reason>,
    occupancy: map<Station, PartId>,
    inQueue: seq<PartId>,
    marks: map<PartId, (nat, bool)>)

  function Marks(s: LineState): map<PartId, (nat, bool)> {
    map pid | pid in s.parts :: (s.parts[pid].coats, s.parts[pid].isWet)
  }

  function KeyOf(s: LineState, declared: int): StructuralKey {
    StructuralKey(declared, s.beat, s.phase, s.fault, s.occupancy, s.inQueue, Marks(s))
  }

  /** The file, as the program can find it. */
  datatype File = Absent | Garbled | Written(snapshot: Snapshot)

  datatype Store = Store(file: File, minInterval: real, lastSave: real, lastStructural: Option<StructuralKey>)

  function Read(file: File): Option<(LineState, int)> {
    if file.Written? then Deserialize(file.snapshot) else None
  }

  function Saved(store: Store, s: LineState, declared: int, now: real): Store {
    store.(file := Written(Serialize(s, declared)), lastSave := now, lastStructural := Some(KeyOf(s, declared)))
  }

  predicate MustSave(store: Store, s: LineState, declared: int, now: real) {
    store.lastStructural != Some(KeyOf(s, declared)) || now - store.lastSave >= store.minInterval
  }

  function MaybeSaved(store: Store, s: LineState, declared: int, now: real): Store {
    if MustSave(store, s, declared, now) then Saved(store, s, declared, now) else store
  }

  /** What the store remembers having saved is what the file reads back as. */
  predicate Remembers(store: Store) {
    store.lastStructural.Some? ==>
      && Read(store.file).Some?
      && KeyOf(Read(store.file).value.0, Read(store.file).value.1) == store.lastStructural.value
  }

  lemma KeyRoundTrip(s: LineState, declared: int)
    ensures Deserialize(Serialize(s, declared)).Some?
    ensures
      var read := Deserialize(Serialize(s, declared)).value;
      KeyOf(read.0, read.1) == KeyOf(s, declared)
  {
    ReadsBack(s, declared);
    assert Marks(Erased(s).(parts := Rekeyed(s.parts))) == Marks(s);
  }

  /** After every call, saved or not, the file agrees with the live state on all
      but the timers and on nothing older. */
  lemma MaybeSavedAgrees(store: Store, s: LineState, declared: int, now: real)
    requires Remembers(store)
    ensures
      var after := MaybeSaved(store, s, declared, now);
      && Remembers(after) && Read(after.file).Some?
      && KeyOf(Read(after.file).value.0, Read(after.file).value.1) == KeyOf(s, declared)
  {
    KeyRoundTrip(s, declared);
  }

  /** The store as the program holds it, with the file it writes. */
  class StateStore {
    const minInterval: real
    var file: File
    var corrupt: Option<File>
    var lastSave: real
    var lastStructural: Option<StructuralKey>

    function Value(): Store
      reads this
    {
      Store(file, minInterval, lastSave, lastStructural)
    }

    constructor (file: File, minInterval: real)
      ensures Value() == Store(file, minInterval, 0.0, None) && corrupt == None
      ensures Remembers(Value())
    {
      this.file, this.minInterval := file, minInterval;
      lastSave, lastStructural, corrupt := 0.0, None, None;
    }

    method Save(s: LineState, declared: int, now: real)
      modifies this
      ensures Value() == Saved(old(Value()), s, declared, now) && corrupt == old(corrupt)
    {
      file := Written(Serialize(s, declared));
      lastSave := now;
      lastStructural := Some(KeyOf(s, declared));
    }

    method MaybeSave(s: LineState, declared: int, now: real) returns (saved: bool)
      requires Remembers(Value())
      modifies this
      ensures Value() == MaybeSaved(old(Value()), s, declared, now) && corrupt == old(corrupt)
      ensures saved == MustSave(old(Value()), s, declared, now)
      ensures Remembers(Value()) && Read(file).Some?
      ensures KeyOf(Read(file).value.0, Read(file).value.1) == KeyOf(s, declared)
    {
      MaybeSavedAgrees(Value(), s, declared, now);
      var key := KeyOf(s, declared);
      if Some(key) != lastStructural {
        Save(s, declared, now);
        return true;
      }
      if now - lastSave >= minInterval {
        Save(s, declared, now);
        return true;
      }
      return false;
    }

    /** An unreadable file is set aside and the line starts fresh. */
    method Load() returns (loaded: Option<(LineState, int)>)
      modifies this
      ensures loaded == Read(old(file))
      ensures file == (if old(file) == Absent || loaded.Some? then old(file) else Absent)
      ensures corrupt == (if old(file) == Absent || loaded.Some? then old(corrupt) else Some(old(file)))
      ensures lastStructural == old(lastStructural) && lastSave == old(lastSave)
    {
      if file == Absent { return None; }
      loaded := Read(file);
      if loaded.None? {
        corrupt, file := Some(file), Absent;
      }
    }
  }
}

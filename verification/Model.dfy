/** Core domain types of the finishing line: stations, parts, sensors, the
    controller state, and the intents it asks the outside world to execute.
    Time and flash seconds are reals; intent ids are naturals. */
module Model {

  datatype Option<+T> = None | Some(value: T)

  /** A part id is used only as a key. The empty id is kept apart because the
      original reads it as falsy. */
  datatype PartId = EmptyId | Id(key: nat)

  datatype Station = IN | F1 | O | F2 | OUT

  datatype Product = CUBE | BROWSER

  datatype Role = LEAD | TRAIL

  datatype Direction = Upstream | Downstream

  datatype Shutter = Open | Closed | Travelling | Unknown

  datatype Beat = P1 | P2 | P3 | P4

  datatype Phase =
    | RobotWork
    | AwaitGuards
    | ShutterOpen
    | Moving
    | ShutterClose
    | SetFans
    | Faulted

  datatype Move = Move(src: Station, dst: Station)

  /** One physical part. The two counters hold fan-on seconds only. */
  datatype PartState = PartState(
    partId: PartId,
    product: Product,
    role: Role,
    pairIndex: int,
    coats: nat,
    flash1: real,
    flash2: real,
    isWet: bool)
  {
    /** Seconds banked on the flash the part is currently waiting out. */
    function ActiveFlash(): real {
      if coats <= 1 then flash1 else flash2
    }

    function WithFlashAdvanced(dt: real): PartState {
      if coats <= 1 then this.(flash1 := flash1 + dt) else this.(flash2 := flash2 + dt)
    }
  }

  /** The process parameters the core and the simulator read. */
  datatype Config = Config(
    flashSeconds: real,
    coats: nat,
    transferSeconds: real,
    coat1Seconds: real,
    cleanGunSeconds: real)

  datatype Sensors = Sensors(
    occupied: set<Station>,
    shutter: Shutter,
    f1Fan: bool,
    f2Fan: bool,
    robotClear: bool,
    gunOn: bool,
    inEye: bool,
    outEye: bool)

  /** Why the machine is not advancing, or why it faulted. */
  datatype Reason =
    | NotFaulted
    | RobotNotClear
    | GunLive
    | QueueHeadEmpty
    | OutfeedOccupied
    | DestinationOccupied(station: Station)
    | FlashOwed(part: PartId, at: Station)
    | ShutterNotOpen
    | ShutterNotClosed
    | NoPartAtO
    | NoPartRecordedAtO
    | WetPartUnderFan(part: PartId)
    | SensorMismatch(station: Station, expected: bool)
    | LineEmpty
    | RoleMismatch(beat: Beat, part: PartId)
    | NotConfirmed(missing: set<Station>)
    | ResumeRejected(mismatch: Reason)
    | UnreachablePhase
    | Restarted
    | External(message: string)

  datatype Intent =
    | SandPart(id: nat, part: PartId)
    | CleanGun(id: nat, part: PartId)
    | SprayPart(id: nat, part: PartId, coat: nat)
    | MoveToSafePose(id: nat)
    | SetShutter(id: nat, target: Shutter)
    | AdvanceTrain(id: nat, direction: Direction, moves: seq<Move>)
    | SetFan(id: nat, station: Station, on: bool)
    | HaltZones(id: nat, reason: Reason)

  /** Complete controller state. `occupancy` is belief, never sensed truth. */
  datatype LineState = LineState(
    parts: map<PartId, PartState>,
    occupancy: map<Station, PartId>,
    inQueue: seq<PartId>,
    pending: seq<nat>,
    inFlight: seq<Move>,
    beat: Beat,
    pairIndex: int,
    phase: Phase,
    f1Fan: bool,
    f2Fan: bool,
    shutter: Shutter,
    sprayBurstActive: bool,
    fault: Option<Reason>,
    faultPhase: Option<Phase>)
  {
    /** An empty id never names a part, even where it occupies a station. */
    function PartAt(station: Station): Option<PartState> {
      if station in occupancy && occupancy[station] != EmptyId && occupancy[station] in parts
      then Some(parts[occupancy[station]])
      else None
    }

    predicate Holds(station: Station) {
      station in occupancy && occupancy[station] != EmptyId
    }

    function FanOn(station: Station): bool {
      if station == F1 then f1Fan else f2Fan
    }
  }

  /** Everything arriving from outside the core on one step. */
  datatype Inputs = Inputs(
    dt: real,
    sensors: Sensors,
    completed: set<nat>,
    fault: Option<Reason>)

  /** `nextId` is the first intent id not yet used. */
  datatype StepResult = StepResult(
    state: LineState,
    intents: seq<Intent>,
    blockedBy: Option<Reason>,
    nextId: nat)
}

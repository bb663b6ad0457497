/** The records shared by the best-master-clock machines of one time-aware system, as values. */
module BmcsState {
  import opened Words
  import opened Priority

  datatype Option<+T> = None | Some(value: T)

  const MAX_PORT_NUMBER_LIMIT := 33
  const MAX_PATH_TRACE_N := 179
  const PATH_TRACE_TLV: uint16 := 8

  datatype PortState = Unset | DisabledPort | MasterPort | PassivePort | SlavePort

  /** Where a port's priority information comes from. */
  datatype InfoIs = Received | Mine | Aged | Disabled

  datatype RcvdInfo = RepeatedMasterInfo | SuperiorMasterInfo | InferiorMasterInfo | OtherInfo

  /** States of the port announce information machine. */
  datatype InfoState =
    InInit | InDisabled | InAged | InUpdate | InCurrent | InReceive |
    InSuperior | InRepeated | InInferior | InReaction

  /** States of the port state selection machine. */
  datatype SelectionState = SelInit | SelInitBridge | SelStateSelection | SelReaction

  /** Leap, UTC, traceability and time source attributes that travel with a grandmaster. */
  datatype TimeProps = TimeProps(
    leap61: bool, leap59: bool, currentUtcOffsetValid: bool, ptpTimescale: bool,
    timeTraceable: bool, frequencyTraceable: bool, currentUtcOffset: int, timeSource: uint8)

  datatype Announce = Announce(
    source: PortIdentity, props: TimeProps, root: SystemIdentity, stepsRemoved: uint16,
    logMessageInterval: int, tlvType: uint16, path: seq<ClockIdentity>)

  datatype PortConfig = PortConfig(announceReceiptTimeout: nat, syncReceiptTimeout: nat, logSyncInterval: int)

  /** Times in nanoseconds: the announce timeout interval, and when each timeout expires. */
  datatype Timers = Timers(announceInterval: nat, announceTime: nat, syncTime: nat)

  /** What is recorded from the last superior announce besides its vector
      (annPathSequence up to annPathSequenceCount). */
  datatype Recorded = Recorded(props: TimeProps, path: seq<ClockIdentity>)

  datatype Port = Port(
    enabled: bool,                      // portOper, ptpPortEnabled and asCapable
    config: PortConfig,
    infoIs: InfoIs,
    portPriority: PriorityVector,
    portStepsRemoved: uint16,
    masterPriority: PriorityVector,
    updtInfo: bool,
    newInfo: bool,
    rcvdMsg: bool,
    rcvdAnnounce: Option<Announce>,     // rcvdAnnouncePtr
    ann: Recorded,
    messagePriority: PriorityVector,
    rcvdInfo: RcvdInfo,
    timers: Timers,
    state: InfoState,
    lastState: InfoState)

  datatype SysRecord = SysRecord(
    thisClock: ClockIdentity,
    systemPriority: PriorityVector,
    sysProps: TimeProps,
    quickUpdate: bool,
    ports: seq<Port>,                   // index 0 is the clock master port
    selectedState: seq<PortState>,
    reselect: seq<bool>,
    selected: seq<bool>,
    gmPriority: PriorityVector,
    masterStepsRemoved: uint16,
    props: TimeProps,
    gmPresent: bool,
    gmIdentity: ClockIdentity,
    pathTrace: seq<ClockIdentity>,      // pathTrace up to pathTraceCount
    selState: SelectionState,
    selLast: SelectionState)

  /** Sizes of the arrays, and the layout of the system's own priority vector (mind.c). */
  predicate Wf(s: SysRecord) {
    && 1 <= |s.ports| < MAX_PORT_NUMBER_LIMIT
    && |s.selectedState| == |s.reselect| == |s.selected| == MAX_PORT_NUMBER_LIMIT
    && |s.pathTrace| <= MAX_PATH_TRACE_N
    && s.systemPriority.root.clockIdentity == s.thisClock
    && s.systemPriority.stepsRemoved == 0
    && s.systemPriority.source == PortIdentity(s.thisClock, 0)
    && s.systemPriority.portNumber == 0
  }

  /** A time-aware system. */
  type Sys = s: SysRecord | Wf(s)
    witness InitialRecord(ZERO_VECTOR.root, NO_PROPS, false, [PortConfig(0, 0, 0)])

  predicate IsPort(s: Sys, p: nat) { 1 <= p < |s.ports| }

  function SetPort(s: Sys, p: nat, q: Port): (r: Sys)
    requires p < |s.ports|
    ensures |r.ports| == |s.ports|
  {
    s.(ports := s.ports[p := q])
  }

  const ZERO_VECTOR: PriorityVector :=
    PriorityVector(SystemIdentity(0, 0, 0, 0, 0, 0), 0, PortIdentity(0, 0), 0)

  const NO_PROPS: TimeProps := TimeProps(false, false, false, false, false, false, 0, 0)

  const NO_SYNC_TIMEOUT: nat := 0xFFFF_FFFF_FFFF_FFFF

  function InitialPort(config: PortConfig): Port {
    Port(false, config, Disabled, ZERO_VECTOR, 0, ZERO_VECTOR, false, false, false, None,
         Recorded(NO_PROPS, []), ZERO_VECTOR, RepeatedMasterInfo, Timers(0, 0, NO_SYNC_TIMEOUT), InInit, InInit)
  }

  function SystemVector(root: SystemIdentity): PriorityVector {
    PriorityVector(root, 0, PortIdentity(root.clockIdentity, 0), 0)
  }

  /** The state before the first event: every record zeroed, then given its configured identity. */
  function InitialRecord(root: SystemIdentity, sysProps: TimeProps, quickUpdate: bool, configs: seq<PortConfig>): SysRecord {
    SysRecord(
      root.clockIdentity, SystemVector(root), sysProps, quickUpdate,
      seq(|configs|, i requires 0 <= i < |configs| => InitialPort(configs[i])),
      seq(MAX_PORT_NUMBER_LIMIT, i => Unset), seq(MAX_PORT_NUMBER_LIMIT, i => false),
      seq(MAX_PORT_NUMBER_LIMIT, i => false),
      ZERO_VECTOR, 0, NO_PROPS, false, root.clockIdentity, [], SelInit, SelInit)
  }

  /** A system with a port record for each of its ports. */
  function NewSys(root: SystemIdentity, sysProps: TimeProps, quickUpdate: bool, configs: seq<PortConfig>): (s: Sys)
    requires 1 <= |configs| < MAX_PORT_NUMBER_LIMIT
    ensures |s.ports| == |configs|
  {
    InitialRecord(root, sysProps, quickUpdate, configs)
  }
}

/** Announce reception and port announce information (port_announce_receive_sm.c,
    port_announce_information_sm.c) as functions of the system's state. */
module PortInformation {
  import opened Words
  import opened Priority
  import opened BmcsState
  import PortSelection

  // ------------------------------------------------------------------ reception

  predicate CarriesPathTrace(a: Announce) { a.tlvType == PATH_TRACE_TLV }

  /** The identities of the path that are looked at: at most MAX_PATH_TRACE_N of them. */
  function CheckedPath(a: Announce): (t: seq<ClockIdentity>)
    ensures |t| <= MAX_PATH_TRACE_N
  {
    if |a.path| < MAX_PATH_TRACE_N then a.path else a.path[..MAX_PATH_TRACE_N]
  }

  predicate Qualified(s: Sys, a: Announce) {
    && a.source.clockIdentity != s.thisClock
    && a.stepsRemoved < 255
    && (CarriesPathTrace(a) ==> s.thisClock !in CheckedPath(a))
  }

  /** Path trace of the system once a qualified announce arrived on port `p`. */
  function TraceAfterQualify(s: Sys, p: nat, a: Announce): (t: seq<ClockIdentity>)
    requires p < |s.selectedState|
    ensures |s.pathTrace| <= MAX_PATH_TRACE_N ==> |t| <= MAX_PATH_TRACE_N
  {
    if !CarriesPathTrace(a) then seq(|s.pathTrace|, i => 0)
    else if s.selectedState[p] == SlavePort then PortSelection.ExtendedPath(a.path, s.thisClock)
    else s.pathTrace
  }

  /** An announce arrives; on a port that is not enabled the message is kept but not looked at. */
  function RecvAnnounce(s: Sys, p: nat, a: Announce): (r: Sys)
    requires IsPort(s, p)
    ensures |r.ports| == |s.ports|
  {
    var q := s.ports[p];
    SetPort(s, p, q.(rcvdAnnounce := Some(a), rcvdMsg := if q.enabled then Qualified(s, a) else q.rcvdMsg)).(
      pathTrace := if q.enabled && Qualified(s, a) then TraceAfterQualify(s, p, a) else s.pathTrace)
  }

  /** What arrival does to the path trace: nothing unless the announce qualifies on an enabled port; one
      without a path trace zeroes it, and one on the slave port replaces it. */
  lemma TraceOnArrival(s: Sys, p: nat, a: Announce)
    requires IsPort(s, p)
    ensures var r, taken := RecvAnnounce(s, p, a), s.ports[p].enabled && Qualified(s, a);
            && r == s.(ports := r.ports, pathTrace := r.pathTrace)
            && (taken && a.tlvType != 8 ==> |r.pathTrace| == |s.pathTrace| && forall i :: 0 <= i < |r.pathTrace| ==> r.pathTrace[i] == 0)
            && (taken && a.tlvType == 8 && s.selectedState[p] == SlavePort ==>
                  r.pathTrace == if |a.path| < 179 then a.path + [s.thisClock] else [])
            && (!taken || (a.tlvType == 8 && s.selectedState[p] != SlavePort) ==> r.pathTrace == s.pathTrace)
  {
    if |a.path| < 179 { assert a.path[..|a.path|] == a.path; }
  }

  // ------------------------------------------------------------------ the machine's view

  /** What the port announce information machine of one port writes. */
  datatype View = View(port: Port, reselect: bool, selected: bool, gmIdentity: ClockIdentity)

  /** What it reads besides: the system as seen from its port. */
  datatype Env = Env(portNumber: uint16, thisClock: ClockIdentity, portState: PortState,
                     masterStepsRemoved: uint16, gmPresent: bool, quickUpdate: bool)

  function ViewOf(s: Sys, p: nat): View
    requires IsPort(s, p)
  {
    View(s.ports[p], s.reselect[p], s.selected[p], s.gmIdentity)
  }

  function EnvOf(s: Sys, p: nat): Env
    requires IsPort(s, p)
  {
    Env(p, s.thisClock, s.selectedState[p], s.masterStepsRemoved, s.gmPresent, s.quickUpdate)
  }

  function Merge(s: Sys, p: nat, v: View): (r: Sys)
    requires IsPort(s, p)
    ensures IsPort(r, p) && ViewOf(r, p) == v && EnvOf(r, p) == EnvOf(s, p)
    ensures |r.ports| == |s.ports|
  {
    s.(ports := s.ports[p := v.port], reselect := s.reselect[p := v.reselect],
       selected := s.selected[p := v.selected], gmIdentity := v.gmIdentity)
  }

  // ------------------------------------------------------------------ classification

  function MessageVector(a: Announce, p: uint16): PriorityVector {
    PriorityVector(a.root, a.stepsRemoved, a.source, p)
  }

  function Classify(e: Env, q: Port, m: PriorityVector): RcvdInfo {
    if e.portState == DisabledPort then OtherInfo
    else if q.portPriority == m then RepeatedMasterInfo
    else if Superior(m, q.portPriority) then SuperiorMasterInfo
    else InferiorMasterInfo
  }

  // ------------------------------------------------------------------ the state procedures

  function DisabledProc(v: View, now: nat): View {
    v.(port := v.port.(rcvdMsg := false, timers := v.port.timers.(announceTime := now), infoIs := Disabled),
       reselect := true, selected := false)
  }

  function AgedProc(v: View, e: Env): View {
    v.(port := v.port.(infoIs := Aged, ann := v.port.ann.(path := [])),
       reselect := true, selected := false, gmIdentity := e.thisClock)
  }

  function UpdateProc(v: View, e: Env): View {
    v.(port := v.port.(portPriority := v.port.masterPriority, portStepsRemoved := e.masterStepsRemoved,
                       updtInfo := false, infoIs := Mine, newInfo := true))
  }

  function ReceiveProc(v: View, e: Env): View
    requires v.port.rcvdAnnounce.Some?
  {
    var m := MessageVector(v.port.rcvdAnnounce.value, e.portNumber);
    v.(port := v.port.(messagePriority := m, rcvdInfo := Classify(e, v.port, m)))
  }

  function Pow2(n: nat): nat { if n == 0 then 1 else 2 * Pow2(n - 1) }

  /** `n` divided by two to the power `k`, rounded down. */
  function Fraction(n: nat, k: nat): nat
    decreases k
  {
    if k == 0 then n else Fraction(n / 2, k - 1)
  }

  /** LOG_TO_NSEC: two to the power `x` seconds, in nanoseconds. */
  function LogToNsec(x: int): nat {
    if x >= 0 then 1_000_000_000 * Pow2(x) else Fraction(1_000_000_000, -x)
  }

  function SuperiorProc(v: View, now: nat): View
    requires v.port.rcvdAnnounce.Some?
  {
    var q := v.port;
    var a := q.rcvdAnnounce.value;
    var interval := q.config.announceReceiptTimeout * LogToNsec(a.logMessageInterval);
    v.(port := q.(
         portPriority := q.messagePriority, portStepsRemoved := a.stepsRemoved,
         ann := Recorded(a.props, a.path),
         timers := Timers(interval, now + interval,
                          now + q.config.syncReceiptTimeout * LogToNsec(q.config.logSyncInterval)),
         infoIs := Received, rcvdMsg := false, rcvdAnnounce := None),
       reselect := true, selected := false, gmIdentity := a.root.clockIdentity)
  }

  function RepeatedProc(v: View, now: nat): View {
    v.(port := v.port.(timers := v.port.timers.(announceTime := now + v.port.timers.announceInterval),
                       rcvdMsg := false, rcvdAnnounce := None))
  }

  function InferiorProc(v: View): View {
    v.(port := v.port.(rcvdMsg := false, rcvdAnnounce := None))
  }

  // ------------------------------------------------------------------ the transition conditions

  predicate UpdatePending(v: View) { v.selected && v.port.updtInfo }

  predicate TimedOut(v: View, e: Env, now: nat) {
    now >= v.port.timers.announceTime || (now >= v.port.timers.syncTime && e.gmPresent)
  }

  function CurrentCondition(v: View, e: Env, now: nat): InfoState {
    if UpdatePending(v) then InUpdate
    else if v.port.infoIs == Received && TimedOut(v, e, now) && !v.port.updtInfo && !v.port.rcvdMsg then InAged
    else if v.port.rcvdMsg && !v.port.updtInfo then InReceive
    else InCurrent
  }

  function ReceiveCondition(q: Port): InfoState {
    match q.rcvdInfo
    case RepeatedMasterInfo => InRepeated
    case InferiorMasterInfo => InInferior
    case OtherInfo => InInferior
    case SuperiorMasterInfo => InSuperior
  }

  function InferiorCondition(q: Port, e: Env): InfoState {
    if q.messagePriority.source == q.portPriority.source && e.quickUpdate then InAged else InCurrent
  }

  // ------------------------------------------------------------------ the dispatch loop

  predicate HandlesMessage(st: InfoState) {
    st == InReceive || st == InSuperior || st == InRepeated || st == InInferior
  }

  predicate AtRest(q: Port) {
    q.lastState == q.state && !HandlesMessage(q.state) && q.state != InUpdate && q.state != InReaction
  }

  /** The states that handle a message have one to handle, and are never entered from themselves. */
  predicate Live(q: Port) {
    && (q.rcvdMsg ==> q.rcvdAnnounce.Some?)
    && (HandlesMessage(q.state) ==> q.rcvdMsg)
    && (q.lastState == q.state ==> AtRest(q))
    && q.state != InReaction
  }

  /** Entry of the machine: a port that stopped being enabled is disabled first. */
  function Enter(v: View): View {
    if !v.port.enabled && v.port.infoIs != Disabled then v.(port := v.port.(state := InDisabled)) else v
  }

  /** The procedure of the state being entered. */
  function Proc(v: View, e: Env, now: nat): View
    requires Live(v.port)
  {
    match v.port.state
    case InDisabled => DisabledProc(v, now)
    case InAged => AgedProc(v, e)
    case InUpdate => UpdateProc(v, e)
    case InReceive => ReceiveProc(v, e)
    case InSuperior => SuperiorProc(v, now)
    case InRepeated => RepeatedProc(v, now)
    case InInferior => InferiorProc(v)
    case _ => v
  }

  /** The state that follows once the procedure has run. */
  function Next(v: View, e: Env, now: nat): InfoState {
    match v.port.state
    case InInit => InDisabled
    case InDisabled => if v.port.enabled then InAged else InDisabled
    case InAged => if UpdatePending(v) then InUpdate else InAged
    case InUpdate => InCurrent
    case InCurrent => CurrentCondition(v, e, now)
    case InReceive => ReceiveCondition(v.port)
    case InSuperior => InCurrent
    case InRepeated => InCurrent
    case InInferior => InferiorCondition(v.port, e)
    case InReaction => InReaction
  }

  /** The procedure runs only when the state changed. */
  function Entered(v: View, e: Env, now: nat): View
    requires Live(v.port)
  {
    if v.port.lastState != v.port.state then Proc(v, e, now) else v
  }

  function Moved(w: View, e: Env, state: InfoState, now: nat): View {
    w.(port := w.port.(lastState := state, state := Next(w, e, now)))
  }

  /** One pass through the body of the loop. */
  function Iterate(v: View, e: Env, now: nat): View
    requires Live(v.port)
  {
    Moved(Entered(v, e, now), e, v.port.state, now)
  }

  predicate Done(v: View) { v.port.lastState == v.port.state }

  /** Decreases over the loop: a message is handled at most once, an update is made at most
      once, and a state entered without news leads to rest. */
  function Measure(v: View): nat {
    (if Done(v) then 100 else 0) + (if v.port.rcvdMsg then 20 else 0) +
    match v.port.state
    case InInit => 14
    case InDisabled => 13
    case InCurrent => if UpdatePending(v) then 12 else if v.port.rcvdMsg then 10 else 1
    case InUpdate => 11
    case InReceive => 9
    case InSuperior => 8
    case InRepeated => 8
    case InInferior => 8
    case InAged => 0
    case InReaction => 0
  }

  lemma StepMessage(v: View, e: Env, now: nat)
    requires Live(v.port)
    ensures var q := Iterate(v, e, now).port;
            (q.rcvdMsg ==> q.rcvdAnnounce.Some?) && (HandlesMessage(q.state) ==> q.rcvdMsg)
  {
    hide LogToNsec;
    hide Classify;
  }

  lemma StepState(v: View, e: Env, now: nat)
    requires Live(v.port)
    ensures var q := Iterate(v, e, now).port;
            q.state != InReaction && (q.lastState == q.state ==> AtRest(q))
  {
    hide LogToNsec;
    hide Classify;
  }

  lemma StepLive(v: View, e: Env, now: nat)
    requires Live(v.port)
    ensures Live(Iterate(v, e, now).port)
  {
    StepMessage(v, e, now);
    StepState(v, e, now);
  }

  lemma StepDecreases(v: View, e: Env, now: nat)
    requires Live(v.port)
    ensures Live(Iterate(v, e, now).port)
    ensures !Done(Iterate(v, e, now)) ==> Measure(Iterate(v, e, now)) < Measure(v)
  {
    StepLive(v, e, now);
    match v.port.state
    case InReceive =>
    case InSuperior =>
    case InRepeated =>
    case InInferior =>
    case _ =>
  }

  /** The dispatch loop from its current state to rest. */
  function Loop(v: View, e: Env, now: nat): (r: View)
    requires Live(v.port)
    ensures Live(r.port) && AtRest(r.port)
    decreases Measure(v)
  {
    StepDecreases(v, e, now);
    var w := Iterate(v, e, now);
    if Done(w) then w else Loop(w, e, now)
  }

  /** A whole call of the machine. */
  function Run(v: View, e: Env, now: nat): (r: View)
    requires Live(v.port)
    ensures Live(r.port) && AtRest(r.port)
  {
    Loop(Enter(v), e, now)
  }

  // ------------------------------------------------------------------ where the loop can lead

  /** The port's information matches the state that ran last, and that state leads to the next one. */
  predicate Tracks(q: Port) {
    match q.lastState
    case InInit => q.infoIs == Disabled && q.state in {InInit, InDisabled}
    case InDisabled => q.infoIs == Disabled && q.state in {InDisabled, InAged}
    case InAged => q.infoIs == Aged && q.state in {InAged, InUpdate, InDisabled}
    case InUpdate => q.infoIs == Mine && q.state == InCurrent
    case InCurrent => (q.infoIs == Mine || q.infoIs == Received) &&
                      q.state in {InUpdate, InAged, InReceive, InCurrent, InDisabled}
    case InReceive => (q.infoIs == Mine || q.infoIs == Received) && q.state in {InSuperior, InRepeated, InInferior}
    case InSuperior => q.infoIs == Received && q.state == InCurrent
    case InRepeated => (q.infoIs == Mine || q.infoIs == Received) && q.state == InCurrent
    case InInferior => (q.infoIs == Mine || q.infoIs == Received) && q.state in {InCurrent, InAged}
    case InReaction => false
  }

  lemma IterateTracks(v: View, e: Env, now: nat)
    requires Live(v.port) && Tracks(v.port)
    ensures Tracks(Iterate(v, e, now).port)
  {}

  lemma EnterTracks(v: View)
    requires AtRest(v.port) && Tracks(v.port)
    ensures Tracks(Enter(v).port)
  {}

  /** What a pass does not bring in by itself. */
  predicate ComesFrom(w: View, v: View) {
    && (!w.reselect ==> w.selected == v.selected && !v.reselect)
    && (w.port.updtInfo ==> v.port.updtInfo)
    && (w.port.rcvdMsg ==> v.port.rcvdMsg)
    && w.port.enabled == v.port.enabled
    && w.port.masterPriority == v.port.masterPriority
  }

  lemma ProcComesFrom(v: View, e: Env, now: nat)
    requires Live(v.port)
    ensures ComesFrom(Proc(v, e, now), v) && Proc(v, e, now).port.state == v.port.state
  {
    hide LogToNsec;
    hide Classify;
  }

  lemma IterateComesFrom(v: View, e: Env, now: nat)
    requires Live(v.port)
    ensures ComesFrom(Iterate(v, e, now), v)
    ensures Done(Iterate(v, e, now)) ==> Next(Iterate(v, e, now), e, now) == Iterate(v, e, now).port.state
  {
    hide Proc;
    hide Live;
    ProcComesFrom(v, e, now);
  }

  /** At rest the machine has no reason to move; what it holds came from where it started. */
  lemma {:induction false} LoopFacts(v: View, e: Env, now: nat)
    requires Live(v.port) && Tracks(v.port)
    ensures var w := Loop(v, e, now);
            && Tracks(w.port)
            && Next(w, e, now) == w.port.state
            && (!w.reselect ==> w.selected == v.selected && !v.reselect)
            && (w.port.updtInfo ==> v.port.updtInfo)
            && (w.port.rcvdMsg ==> v.port.rcvdMsg)
            && w.port.enabled == v.port.enabled
            && w.port.masterPriority == v.port.masterPriority
    decreases Measure(v)
  {
    hide Iterate;
    hide Next;
    hide Tracks;
    StepDecreases(v, e, now);
    IterateTracks(v, e, now);
    IterateComesFrom(v, e, now);
    var w := Iterate(v, e, now);
    if !Done(w) { LoopFacts(w, e, now); }
  }

  /** A port that never ran, or that has to be disabled or enabled, asks for a selection. */
  lemma StartFacts(v: View, e: Env, now: nat)
    requires Live(v.port) && AtRest(v.port) && Tracks(v.port)
    ensures var w := Run(v, e, now);
            && (!v.port.enabled ==> w.port.state == InDisabled && (!w.reselect ==> v.port.state == InDisabled))
            && (v.port.enabled && !w.reselect ==> v.port.state == InAged || v.port.state == InCurrent)
  {
    hide Superior;
    hide LogToNsec;
    var x := Enter(v);
    EnterTracks(v);
    LoopFacts(x, e, now);
    var y := Iterate(x, e, now);
    StepDecreases(x, e, now);
    IterateTracks(x, e, now);
    if !Done(y) {
      LoopFacts(y, e, now);
      var z := Iterate(y, e, now);
      StepDecreases(y, e, now);
      IterateTracks(y, e, now);
      if !Done(z) { LoopFacts(z, e, now); }
    }
  }

  /** A call of the machine, from rest to rest. */
  lemma RunFacts(v: View, e: Env, now: nat)
    requires Live(v.port) && AtRest(v.port) && Tracks(v.port)
    ensures var w := Run(v, e, now);
            && Tracks(w.port)
            && w.port.enabled == v.port.enabled
            && (w.port.enabled ==> w.port.state == InAged || w.port.state == InCurrent)
            && (w.port.enabled ==> !UpdatePending(w))
            && (!w.port.enabled ==> w.port.infoIs == Disabled && w.port.state == InDisabled)
            && (!w.reselect ==> w.selected == v.selected && !v.reselect)
            && (w.port.updtInfo ==> v.port.updtInfo)
  {
    EnterTracks(v);
    LoopFacts(Enter(v), e, now);
    StartFacts(v, e, now);
  }

  // ------------------------------------------------------------------ what one call does with an announce

  lemma LoopStep(v: View, e: Env, now: nat)
    requires Live(v.port)
    ensures Live(Iterate(v, e, now).port)
    ensures Loop(v, e, now) == if Done(Iterate(v, e, now)) then Iterate(v, e, now) else Loop(Iterate(v, e, now), e, now)
  {
    StepDecreases(v, e, now);
  }

  /** A port that waits, with an announce to handle and no update due. */
  predicate Hears(v: View) {
    var q := v.port;
    && Live(q) && q.enabled && q.state == InCurrent && q.lastState == InCurrent
    && (q.infoIs == Mine || q.infoIs == Received) && q.rcvdMsg && !q.updtInfo
  }

  /** The announce is classified first. */
  lemma HearingReceives(v: View, e: Env, now: nat)
    requires Hears(v)
    ensures var a := v.port.rcvdAnnounce.value;
            var m := MessageVector(a, e.portNumber);
            var q := v.port.(messagePriority := m, rcvdInfo := Classify(e, v.port, m),
                             lastState := InReceive, state := ReceiveCondition(v.port.(rcvdInfo := Classify(e, v.port, m))));
            Live(q) && Run(v, e, now) == Loop(v.(port := q), e, now)
  {
    hide Superior;
    hide LogToNsec;
    var a := v.port.rcvdAnnounce.value;
    var c := Classify(e, v.port, MessageVector(a, e.portNumber));
    var w := v.(port := v.port.(state := InReceive));
    assert Iterate(v, e, now) == w;
    assert Iterate(w, e, now) ==
           v.(port := v.port.(messagePriority := MessageVector(a, e.portNumber), rcvdInfo := c, lastState := InReceive,
                              state := ReceiveCondition(v.port.(rcvdInfo := c))));
    hide Iterate;
    LoopStep(v, e, now);
    LoopStep(w, e, now);
  }

  /** A pass that enters CURRENT does what a pass that stays there does. */
  lemma EnteringCurrent(v: View, e: Env, now: nat)
    requires Live(v.port) && v.port.state == InCurrent
    ensures var u := v.(port := v.port.(lastState := InCurrent)); Live(u.port) && Loop(v, e, now) == Loop(u, e, now)
  {
    var u := v.(port := v.port.(lastState := InCurrent));
    assert Iterate(u, e, now) == Iterate(v, e, now);
    LoopStep(v, e, now);
    LoopStep(u, e, now);
  }

  /** The port once a superior announce is stored: its vector and attributes, its timeouts started, and a
      selection asked for. */
  function SuperiorStored(v: View, e: Env, now: nat): View
    requires v.port.rcvdAnnounce.Some?
  {
    var m := MessageVector(v.port.rcvdAnnounce.value, e.portNumber);
    var w := SuperiorProc(v.(port := v.port.(messagePriority := m, rcvdInfo := SuperiorMasterInfo)), now);
    w.(port := w.port.(state := InCurrent, lastState := InCurrent))
  }

  /** A superior announce is stored; the call goes on as one that finds it stored. */
  lemma SuperiorIsStored(v: View, e: Env, now: nat)
    requires Hears(v)
    requires e.portState != DisabledPort
    requires Superior(MessageVector(v.port.rcvdAnnounce.value, e.portNumber), v.port.portPriority)
    ensures Live(SuperiorStored(v, e, now).port) && Run(v, e, now) == Run(SuperiorStored(v, e, now), e, now)
  {
    hide LogToNsec;
    hide Superior;
    var m := MessageVector(v.port.rcvdAnnounce.value, e.portNumber);
    SuperiorTotal(m, v.port.portPriority);
    HearingReceives(v, e, now);
    var u := v.(port := v.port.(messagePriority := m, rcvdInfo := SuperiorMasterInfo, lastState := InReceive, state := InSuperior));
    var w := Iterate(u, e, now);
    assert w == SuperiorStored(v, e, now).(port := SuperiorStored(v, e, now).port.(lastState := InSuperior));
    hide Iterate;
    hide SuperiorStored;
    LoopStep(u, e, now);
    EnteringCurrent(w, e, now);
  }

  /** Unless a timeout interval is zero, that is all a superior announce does. */
  lemma SuperiorTakesOver(v: View, e: Env, now: nat)
    requires Hears(v)
    requires e.portState != DisabledPort
    requires Superior(MessageVector(v.port.rcvdAnnounce.value, e.portNumber), v.port.portPriority)
    requires now < now + v.port.config.announceReceiptTimeout * LogToNsec(v.port.rcvdAnnounce.value.logMessageInterval)
    requires e.gmPresent ==> v.port.config.syncReceiptTimeout * LogToNsec(v.port.config.logSyncInterval) > 0
    ensures var a, c, m := v.port.rcvdAnnounce.value, v.port.config, MessageVector(v.port.rcvdAnnounce.value, e.portNumber);
            var interval := c.announceReceiptTimeout * LogToNsec(a.logMessageInterval);
            Run(v, e, now) ==
              View(v.port.(infoIs := Received, portPriority := m, portStepsRemoved := a.stepsRemoved,
                           ann := Recorded(a.props, a.path),
                           timers := Timers(interval, now + interval,
                                            now + c.syncReceiptTimeout * LogToNsec(c.logSyncInterval)),
                           rcvdMsg := false, rcvdAnnounce := None, messagePriority := m, rcvdInfo := SuperiorMasterInfo),
                   true, false, a.root.clockIdentity)
  {
    SuperiorIsStored(v, e, now);
    ReceivedAgesIff(SuperiorStored(v, e, now), e, now);
  }

  /** A repeated announce starts the announce timeout again; the call goes on as one that finds it started. */
  lemma RepeatedOnlyRefreshes(v: View, e: Env, now: nat)
    requires Hears(v)
    requires e.portState != DisabledPort && v.port.portPriority == MessageVector(v.port.rcvdAnnounce.value, e.portNumber)
    ensures var q := v.port;
            var u := v.(port := q.(timers := q.timers.(announceTime := now + q.timers.announceInterval), rcvdMsg := false,
                                   rcvdAnnounce := None, messagePriority := q.portPriority, rcvdInfo := RepeatedMasterInfo));
            Live(u.port) && Run(v, e, now) == Run(u, e, now)
  {
    HearingReceives(v, e, now);
    var m := MessageVector(v.port.rcvdAnnounce.value, e.portNumber);
    var u := v.(port := v.port.(messagePriority := m, rcvdInfo := RepeatedMasterInfo, lastState := InReceive, state := InRepeated));
    LoopStep(u, e, now);
    EnteringCurrent(Iterate(u, e, now), e, now);
  }

  /** An announce that is neither superior nor repeated is dropped; but with quick update one from the very
      port whose announce is stored ages what is stored. */
  lemma InferiorIsDropped(v: View, e: Env, now: nat)
    requires Hears(v)
    requires var m := MessageVector(v.port.rcvdAnnounce.value, e.portNumber);
             e.portState == DisabledPort || (m != v.port.portPriority && !Superior(m, v.port.portPriority))
    ensures var q, m := v.port, MessageVector(v.port.rcvdAnnounce.value, e.portNumber);
            var info := if e.portState == DisabledPort then OtherInfo else InferiorMasterInfo;
            var u := v.(port := q.(rcvdMsg := false, rcvdAnnounce := None, messagePriority := m, rcvdInfo := info));
            && Live(u.port)
            && Run(v, e, now) ==
                 if e.quickUpdate && m.source == q.portPriority.source then
                   View(u.port.(infoIs := Aged, ann := q.ann.(path := []), state := InAged, lastState := InAged),
                        true, false, e.thisClock)
                 else Run(u, e, now)
  {
    hide Superior;
    HearingReceives(v, e, now);
    var m := MessageVector(v.port.rcvdAnnounce.value, e.portNumber);
    var info := if e.portState == DisabledPort then OtherInfo else InferiorMasterInfo;
    var u := v.(port := v.port.(messagePriority := m, rcvdInfo := info, lastState := InReceive, state := InInferior));
    LoopStep(u, e, now);
    var w := Iterate(u, e, now);
    if w.port.state == InAged {
      LoopStep(w, e, now);
    } else {
      hide Iterate;
      EnteringCurrent(w, e, now);
    }
  }

  // ------------------------------------------------------------------ what one call does without one

  /** A port holding a neighbour's announce ages exactly when its announce, or with a grandmaster its
      Sync, has timed out; otherwise a call changes nothing. */
  lemma ReceivedAgesIff(v: View, e: Env, now: nat)
    requires Live(v.port) && v.port.enabled && v.port.state == v.port.lastState == InCurrent
    requires v.port.infoIs == Received && !v.port.rcvdMsg && !v.port.updtInfo
    ensures var t := v.port.timers;
            Run(v, e, now) ==
              if now >= t.announceTime || (now >= t.syncTime && e.gmPresent) then
                View(v.port.(infoIs := Aged, ann := v.port.ann.(path := []), state := InAged, lastState := InAged),
                     true, false, e.thisClock)
              else v
  {
    LoopStep(v, e, now);
    if TimedOut(v, e, now) { LoopStep(Iterate(v, e, now), e, now); }
  }

  /** An update due is made: the port announces the system's own choice and has news. */
  lemma UpdateIsMade(v: View, e: Env, now: nat)
    requires Live(v.port) && v.port.enabled && (v.port.state == InAged || v.port.state == InCurrent)
    requires v.port.lastState == v.port.state && v.selected && v.port.updtInfo && !v.port.rcvdMsg
    ensures Run(v, e, now) ==
              v.(port := v.port.(infoIs := Mine, portPriority := v.port.masterPriority,
                                 portStepsRemoved := e.masterStepsRemoved, updtInfo := false, newInfo := true,
                                 state := InCurrent, lastState := InCurrent))
  {
    LoopStep(v, e, now);
    var w := Iterate(v, e, now);
    LoopStep(w, e, now);
    var u := Iterate(w, e, now);
    LoopStep(u, e, now);
  }

  /** A port that is no longer enabled is disabled and asks for a selection. */
  lemma PortIsDisabled(v: View, e: Env, now: nat)
    requires Live(v.port) && AtRest(v.port) && !v.port.enabled && v.port.infoIs != Disabled
    requires v.port.state == InAged || v.port.state == InCurrent
    ensures Run(v, e, now) ==
              v.(port := v.port.(infoIs := Disabled, rcvdMsg := false, timers := v.port.timers.(announceTime := now),
                                 state := InDisabled, lastState := InDisabled),
                 reselect := true, selected := false)
  {
    LoopStep(Enter(v), e, now);
  }

  /** A port that comes to be enabled has aged information and asks for a selection. */
  lemma PortIsEnabled(v: View, e: Env, now: nat)
    requires Live(v.port) && AtRest(v.port) && v.port.enabled && v.port.infoIs == Disabled && v.port.state == InDisabled
    ensures Run(v, e, now) ==
              View(v.port.(infoIs := Aged, ann := v.port.ann.(path := []), state := InAged, lastState := InAged),
                   true, false, e.thisClock)
  {
    LoopStep(v, e, now);
    LoopStep(Iterate(v, e, now), e, now);
  }

  /** The intervals of 1 s, 2 s and half a second. */
  lemma IntervalOfZero()
    ensures LogToNsec(0) == 1_000_000_000 && LogToNsec(1) == 2_000_000_000 && LogToNsec(-1) == 500_000_000
  {}

  lemma {:induction false} FractionHalves(n: nat, k: nat)
    ensures Fraction(n, k + 1) == Fraction(n, k) / 2
    decreases k
  {
    if k > 0 { FractionHalves(n / 2, k - 1); }
  }

  /** One more in the logarithm doubles the interval, up to rounding down below a second. */
  lemma IntervalDoubles(x: int)
    ensures x >= 0 ==> LogToNsec(x + 1) == 2 * LogToNsec(x)
    ensures x < 0 ==> LogToNsec(x) == LogToNsec(x + 1) / 2
  {
    if x < 0 { FractionHalves(1_000_000_000, -x - 1); }
  }

  /** The course of the loop once an update is due: the update is made, then a message at most. */
  predicate Updating(v: View, rcvdMsg: bool) {
    var q := v.port;
    && q.enabled
    && q.state != InDisabled && q.state != InInit
    && if q.rcvdMsg == rcvdMsg && !v.reselect then
         || (UpdatePending(v) && (q.state == InCurrent || q.state == InUpdate || (q.state == InAged && Done(v))))
         || (q.infoIs == Mine && !q.updtInfo && (q.state == InCurrent || HandlesMessage(q.state)))
       else rcvdMsg && !q.rcvdMsg && !q.updtInfo && (q.state == InCurrent || q.state == InAged)
  }

  lemma {:induction false} UpdatingLoop(v: View, e: Env, now: nat, rcvdMsg: bool)
    requires Live(v.port) && Tracks(v.port) && Updating(v, rcvdMsg)
    ensures var w := Loop(v, e, now);
            && w.port.enabled && (w.port.state == InCurrent || w.port.state == InAged)
            && ((!w.reselect && !w.port.updtInfo) || (rcvdMsg && !w.port.rcvdMsg))
    decreases Measure(v)
  {
    StepDecreases(v, e, now);
    IterateTracks(v, e, now);
    var w := Iterate(v, e, now);
    assert Done(w) || Updating(w, rcvdMsg);
    if !Done(w) { UpdatingLoop(w, e, now, rcvdMsg); }
  }

  /** One pass of the machine of port `p` within the system. */
  function InfoIterate(s: Sys, p: nat, now: nat): (r: Sys)
    requires IsPort(s, p) && Live(s.ports[p])
    ensures |r.ports| == |s.ports|
  {
    Merge(s, p, Iterate(ViewOf(s, p), EnvOf(s, p), now))
  }

  lemma InfoIterateParts(s: Sys, p: nat, now: nat)
    requires IsPort(s, p) && Live(s.ports[p])
    ensures var v, e := ViewOf(s, p), EnvOf(s, p);
            var t := Merge(s, p, Entered(v, e, now));
            InfoIterate(s, p, now) == Merge(t, p, Moved(ViewOf(t, p), EnvOf(t, p), v.port.state, now))
  {}

  /** A pass in a system whose machine has come as far as `v`. */
  lemma InfoIterateMerged(s: Sys, p: nat, v: View, now: nat)
    requires IsPort(s, p) && Live(v.port)
    ensures var e := EnvOf(s, p);
            && InfoIterate(Merge(s, p, v), p, now) == Merge(s, p, Iterate(v, e, now))
            && Loop(v, e, now) == if Done(Iterate(v, e, now)) then Iterate(v, e, now)
                                  else (StepDecreases(v, e, now); Loop(Iterate(v, e, now), e, now))
  {
    StepDecreases(v, EnvOf(s, p), now);
  }

  function InfoRun(s: Sys, p: nat, now: nat): (r: Sys)
    requires IsPort(s, p) && Live(s.ports[p])
    ensures |r.ports| == |s.ports| && Live(r.ports[p]) && AtRest(r.ports[p])
  {
    Merge(s, p, Run(ViewOf(s, p), EnvOf(s, p), now))
  }
}

/** Port state selection (port_state_selection_sm.c) as functions of the system's state. */
module PortSelection {
  import opened Words
  import opened Priority
  import opened BmcsState

  /** Any non-zero quality or hop count counts as a stored priority vector. */
  predicate HasPortPriority(v: PriorityVector) {
    v.root.priority1 != 0 || v.root.clockClass != 0 || v.root.clockAccuracy != 0 ||
    v.root.offsetScaledLogVariance != 0 || v.root.priority2 != 0 || v.stepsRemoved != 0
  }

  /** gmPathPriority of a port: its vector one hop further, or the worst vector. */
  function GmPath(q: Port): PriorityVector {
    if HasPortPriority(q.portPriority) && q.infoIs != Aged
    then q.portPriority.(stepsRemoved := (q.portPriority.stepsRemoved + 1) % 0x1_0000)
    else WORST
  }

  /** Ports whose path vector takes part in the choice of the grandmaster. */
  predicate Candidate(s: Sys, i: nat)
    requires i < |s.ports|
  {
    s.ports[i].infoIs != Disabled && GmPath(s.ports[i]).source.clockIdentity != s.thisClock
  }

  /** A vector counts as none exactly when it is zero apart from who sent it. */
  lemma NoneIsZero(v: PriorityVector)
    ensures !HasPortPriority(v) <==>
              v == PriorityVector(SystemIdentity(0, 0, 0, 0, 0, v.root.clockIdentity), 0, v.source, v.portNumber)
  {}

  /** What a port offers: what it stores, one hop further; and nothing, which no vector is worse than, when
      that is aged or none. */
  lemma PathIsOffered(q: Port)
    ensures var v := q.portPriority;
            if q.infoIs == Aged || v == PriorityVector(SystemIdentity(0, 0, 0, 0, 0, v.root.clockIdentity), 0, v.source, v.portNumber)
            then GmPath(q) == WORST
            else GmPath(q) == v.(stepsRemoved := if v.stepsRemoved == 65535 then 0 else v.stepsRemoved + 1)
  {
    NoneIsZero(q.portPriority);
  }

  datatype Choice = Choice(vector: PriorityVector, props: TimeProps)

  /** The choice after the first `n` ports have been looked at. */
  function Best(s: Sys, n: nat): Choice
    requires n <= |s.ports|
  {
    if n == 0 then Choice(s.systemPriority, s.sysProps)
    else
      var c := Best(s, n - 1);
      if Candidate(s, n - 1) && Superior(GmPath(s.ports[n - 1]), c.vector)
      then Choice(GmPath(s.ports[n - 1]), s.ports[n - 1].ann.props)
      else c
  }

  function MasterVector(s: Sys, gm: PriorityVector, i: uint16): PriorityVector {
    gm.(source := PortIdentity(s.thisClock, i), portNumber := i)
  }

  function WithMasterVectors(s: Sys): Sys {
    s.(ports := seq(|s.ports|, i requires 0 <= i < |s.ports| =>
         s.ports[i].(masterPriority := MasterVector(s, s.gmPriority, i))),
       masterStepsRemoved := s.gmPriority.stepsRemoved)
  }

  /** State and updtInfo that one port is given (portStateUpdate). */
  function NewPortState(s: Sys, i: nat): (PortState, bool)
    requires i < |s.ports| && i < |s.selectedState|
  {
    var q := s.ports[i];
    match q.infoIs
    case Disabled => (DisabledPort, false)
    case Aged => (MasterPort, true)
    case Mine =>
      (MasterPort,
       q.updtInfo || q.masterPriority != q.portPriority || s.masterStepsRemoved != q.portStepsRemoved)
    case Received =>
      if s.gmPriority == GmPath(q) then (SlavePort, false)
      else if !Superior(q.masterPriority, q.portPriority) then (PassivePort, false)
      else (MasterPort, true)
  }

  /** The path trace this system will send on, from the path of the announce it follows. */
  function ExtendedPath(path: seq<ClockIdentity>, thisClock: ClockIdentity): (t: seq<ClockIdentity>)
    ensures |t| <= MAX_PATH_TRACE_N
  {
    var n := if |path| < MAX_PATH_TRACE_N then |path| else MAX_PATH_TRACE_N;
    if n + 1 <= MAX_PATH_TRACE_N then path[..n] + [thisClock] else []
  }

  predicate BecomesSlave(s: Sys, i: nat)
    requires IsPort(s, i)
  {
    NewPortState(s, i).0 == SlavePort && s.selectedState[i] != SlavePort
  }

  function PortStateUpdate(s: Sys, i: nat): (r: Sys)
    requires IsPort(s, i)
    ensures |r.ports| == |s.ports|
  {
    var (st, upd) := NewPortState(s, i);
    SetPort(s, i, s.ports[i].(updtInfo := upd)).(
      selectedState := s.selectedState[i := st],
      pathTrace := if BecomesSlave(s, i) then ExtendedPath(s.ports[i].ann.path, s.thisClock) else s.pathTrace)
  }

  /** Ports 1 to n-1 given their state, in port order. */
  function AssignPorts(s: Sys, n: nat): (r: Sys)
    requires 1 <= n <= |s.ports|
    ensures |r.ports| == |s.ports|
  {
    if n == 1 then s else PortStateUpdate(AssignPorts(s, n - 1), n - 1)
  }

  predicate SlaveAmong(s: Sys, n: nat)
    requires n <= |s.selectedState|
  {
    exists i :: 1 <= i < n && s.selectedState[i] == SlavePort
  }

  function ChooseGm(s: Sys): Sys {
    var c := Best(s, |s.ports|);
    s.(gmPriority := c.vector, props := c.props)
  }

  function AssignPortZero(s: Sys): Sys {
    s.(gmPresent := s.gmPriority.root.priority1 < 255,
       selectedState := s.selectedState[0 := if SlaveAmong(s, |s.ports|) then PassivePort else SlavePort],
       pathTrace := if s.thisClock == s.gmPriority.root.clockIdentity then [s.thisClock] else s.pathTrace)
  }

  /** updtStatesTree: grandmaster, master vectors, port states, port 0, path trace. */
  function UpdtStatesTree(s: Sys): Sys {
    var t := WithMasterVectors(ChooseGm(s));
    AssignPortZero(AssignPorts(t, |t.ports|))
  }

  function StateSelectionProc(s: Sys): Sys {
    var t := UpdtStatesTree(s.(reselect := seq(MAX_PORT_NUMBER_LIMIT, i => false)));
    t.(selected := seq(MAX_PORT_NUMBER_LIMIT, i => true))
  }

  function InitBridgeProc(s: Sys): Sys {
    s.(selectedState := seq(MAX_PORT_NUMBER_LIMIT, i => DisabledPort), pathTrace := [s.thisClock])
  }

  predicate AnyReselect(s: Sys) {
    exists i :: 0 <= i < |s.reselect| && s.reselect[i]
  }

  /** One pass through the body of the machine's dispatch loop. */
  function SelectIterate(s: Sys): Sys {
    var change := s.selLast != s.selState;
    var t := s.(selLast := s.selState);
    match s.selState
    case SelInit => t.(selState := SelInitBridge)
    case SelInitBridge => (if change then InitBridgeProc(t) else t).(selState := SelStateSelection)
    case SelStateSelection =>
      var u := if change then StateSelectionProc(t) else t;
      if AnyReselect(u) then u.(selLast := SelReaction) else u
    case SelReaction => t
  }

  predicate SelectDone(s: Sys) { s.selLast == s.selState }

  /** Decreases over the dispatch loop; the loop stops when a pass changes no state. */
  function SelectMeasure(s: Sys): nat {
    (if s.selLast == s.selState then 10 else 0) +
    match s.selState
    case SelInit => 3
    case SelInitBridge => 2
    case SelStateSelection => 1
    case SelReaction => 0
  }

  lemma ProcClearsReselect(s: Sys)
    ensures var t := StateSelectionProc(s);
            !AnyReselect(t) && t.selState == s.selState && t.selLast == s.selLast
    ensures forall i :: 0 <= i < MAX_PORT_NUMBER_LIMIT ==> StateSelectionProc(s).selected[i]
  {
    var s1 := s.(reselect := seq(MAX_PORT_NUMBER_LIMIT, i => false));
    AssignPortsFrame(WithMasterVectors(ChooseGm(s1)), |s.ports|);
  }

  /** What the assignment of port states leaves alone. */
  lemma {:induction false} AssignPortsFrame(s: Sys, n: nat)
    requires 1 <= n <= |s.ports|
    ensures var r := AssignPorts(s, n);
            r == s.(ports := r.ports, selectedState := r.selectedState, pathTrace := r.pathTrace)
  {
    if n > 1 { AssignPortsFrame(s, n - 1); }
  }

  lemma SelectStepDecreases(s: Sys)
    requires !SelectDone(SelectIterate(s))
    ensures SelectMeasure(SelectIterate(s)) < SelectMeasure(s)
  {
    if s.selState == SelStateSelection && s.selLast != s.selState {
      ProcClearsReselect(s.(selLast := s.selState));
    }
  }

  /** The machine run to rest. */
  function SelectRun(s: Sys): (r: Sys)
    ensures SelectDone(r)
    decreases SelectMeasure(s)
  {
    var t := SelectIterate(s);
    if SelectDone(t) then t else SelectStepDecreases(s); SelectRun(t)
  }

  // ------------------------------------------------------------------ what a run amounts to

  /** Between calls the machine has either never run or waits in STATE_SELECTION. */
  predicate SelectAtRest(s: Sys) {
    s.selLast == s.selState && (s.selState == SelInit || s.selState == SelStateSelection)
  }

  predicate Settled(s: Sys) { s.selState == SelStateSelection && !AnyReselect(s) }

  /** A call selects once if something asked for it or nothing was ever selected, and not otherwise. */
  lemma SelectRunCases(s: Sys)
    requires SelectAtRest(s)
    ensures Settled(s) ==> SelectRun(s) == s
    ensures s.selState == SelStateSelection && AnyReselect(s) ==> SelectRun(s) == StateSelectionProc(s)
    ensures s.selState == SelInit ==>
            SelectRun(s) == StateSelectionProc(
              InitBridgeProc(s).(selState := SelStateSelection, selLast := SelStateSelection))
  {
    hide StateSelectionProc;
    var t := SelectIterate(s);
    if s.selState == SelStateSelection {
      if AnyReselect(s) {
        ProcClearsReselect(s);
        assert t == s.(selLast := SelReaction);
        assert SelectIterate(t) == StateSelectionProc(s);
      }
    } else {
      assert t == s.(selState := SelInitBridge);
      var u := SelectIterate(t);
      assert u == InitBridgeProc(s).(selLast := SelInitBridge, selState := SelStateSelection);
      var w := u.(selLast := SelStateSelection);
      ProcClearsReselect(w);
      assert SelectIterate(u) == StateSelectionProc(w);
      assert SelectRun(u) == StateSelectionProc(w);
      assert SelectRun(t) == SelectRun(u);
    }
  }

  lemma PortStateUpdateAt(s: Sys, k: nat, i: nat)
    requires IsPort(s, k) && i < |s.ports|
    ensures var r := PortStateUpdate(s, k);
            && r.ports[i] == (if i == k then s.ports[k].(updtInfo := NewPortState(s, k).1) else s.ports[i])
            && r.selectedState[i] == (if i == k then NewPortState(s, k).0 else s.selectedState[i])
            && r.pathTrace == (if BecomesSlave(s, k) then ExtendedPath(s.ports[k].ann.path, s.thisClock) else s.pathTrace)
  {}

  lemma SameNewState(s: Sys, u: Sys, i: nat)
    requires i < |s.ports| == |u.ports| && u.ports[i] == s.ports[i]
    requires u.gmPriority == s.gmPriority && u.masterStepsRemoved == s.masterStepsRemoved
    ensures NewPortState(u, i) == NewPortState(s, i)
  {}

  /** Port `i` after the assignment: only its own entry decides it. */
  lemma {:induction false} AssignPortsAt(s: Sys, n: nat, i: nat)
    requires 1 <= n <= |s.ports| && i < |s.ports|
    ensures var r := AssignPorts(s, n);
            if 1 <= i < n then
              r.ports[i] == s.ports[i].(updtInfo := NewPortState(s, i).1) &&
              r.selectedState[i] == NewPortState(s, i).0
            else r.ports[i] == s.ports[i] && r.selectedState[i] == s.selectedState[i]
  {
    hide PortStateUpdate;
    hide NewPortState;
    if n > 1 {
      AssignPortsAt(s, n - 1, i);
      AssignPortsAt(s, n - 1, n - 1);
      AssignPortsFrame(s, n - 1);
      SameNewState(s, AssignPorts(s, n - 1), n - 1);
      PortStateUpdateAt(AssignPorts(s, n - 1), n - 1, i);
    }
  }

  /** The system that the port states are assigned in. */
  function Chosen(s: Sys): (r: Sys)
    ensures |r.ports| == |s.ports|
  {
    WithMasterVectors(ChooseGm(s))
  }

  /** Selection seen from one port: it gives the port its master vector, state and updtInfo. */
  lemma UpdtStatesTreeAt(s: Sys, i: nat)
    requires i < |s.ports|
    ensures var r := UpdtStatesTree(s);
            && |r.ports| == |s.ports|
            && r.ports[i].masterPriority == MasterVector(s, r.gmPriority, i)
            && (i == 0 ==> r.ports[0] == s.ports[0].(masterPriority := r.ports[0].masterPriority))
            && (1 <= i ==>
                  r.ports[i] == s.ports[i].(masterPriority := r.ports[i].masterPriority,
                                            updtInfo := NewPortState(Chosen(s), i).1) &&
                  r.selectedState[i] == NewPortState(Chosen(s), i).0)
  {
    AssignPortsAt(Chosen(s), |s.ports|, i);
    AssignPortsFrame(Chosen(s), |s.ports|);
  }

  /** What selection leaves alone, and the system-wide values it sets. */
  lemma UpdtStatesTreeFrame(s: Sys)
    ensures var r := UpdtStatesTree(s);
            && r == s.(ports := r.ports, selectedState := r.selectedState, pathTrace := r.pathTrace,
                       gmPriority := Best(s, |s.ports|).vector, props := Best(s, |s.ports|).props,
                       masterStepsRemoved := Best(s, |s.ports|).vector.stepsRemoved,
                       gmPresent := Best(s, |s.ports|).vector.root.priority1 < 255)
            && r.selectedState[0] == if SlaveAmong(r, |s.ports|) then PassivePort else SlavePort
  {
    hide AssignPorts;
    hide AssignPortZero;
    hide SlaveAmong;
    hide Best;
    AssignPortsFrame(Chosen(s), |s.ports|);
    PortZeroFrame(AssignPorts(Chosen(s), |s.ports|));
  }

  lemma PortZeroFrame(s: Sys)
    ensures var r := AssignPortZero(s);
            && r == s.(gmPresent := s.gmPriority.root.priority1 < 255,
                       selectedState := r.selectedState, pathTrace := r.pathTrace)
            && r.selectedState[0] == if SlaveAmong(r, |s.ports|) then PassivePort else SlavePort
  {
    var r := AssignPortZero(s);
    assert forall j :: 1 <= j < |s.ports| ==> r.selectedState[j] == s.selectedState[j];
  }

  /** A selection seen from one port. */
  lemma SelectionAt(s: Sys, p: nat)
    requires p < |s.ports|
    ensures var r := StateSelectionProc(s);
            && |r.ports| == |s.ports|
            && r.ports[p] == s.ports[p].(masterPriority := r.ports[p].masterPriority,
                                         updtInfo := r.ports[p].updtInfo)
            && r.selected[p]
            && (p > 0 && s.ports[p].infoIs == Disabled ==> !r.ports[p].updtInfo)
  {
    ProcClearsReselect(s);
    UpdtStatesTreeAt(s.(reselect := seq(MAX_PORT_NUMBER_LIMIT, i => false)), p);
  }

  /** The state in which a call of the machine selects. */
  function Awake(s: Sys): (r: Sys)
    ensures r.ports == s.ports
  {
    if s.selState == SelInit
    then InitBridgeProc(s).(selState := SelStateSelection, selLast := SelStateSelection) else s
  }

  lemma SelectRunAwake(s: Sys)
    requires SelectAtRest(s)
    ensures SelectRun(s) == if Settled(s) then s else StateSelectionProc(Awake(s))
    ensures Settled(SelectRun(s)) && SelectAtRest(SelectRun(s))
  {
    SelectRunCases(s);
    ProcClearsReselect(Awake(s));
  }
}

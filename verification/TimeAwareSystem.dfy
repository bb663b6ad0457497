/** One time-aware system as the program keeps it: shared records and arrays updated in place.
    Every method is proved against the functions of PortSelection, PortInformation and BmcsPerform,
    applied to the system's snapshot. */
module TimeAwareSystem {
  import opened Words
  import opened Priority
  import opened BmcsState
  import S = PortSelection
  import I = PortInformation
  import opened BmcsPerform
  import Inv = BmcsInvariants
  import Path = PathTrace

  class TimeAware {
    const thisClock: ClockIdentity
    const systemPriority: PriorityVector
    const sysProps: TimeProps
    const quickUpdate: bool
    const bppg: array<Port>                   // per-port records, index 0 is the clock master port
    const selectedState: array<PortState>
    const reselect: array<bool>
    const selected: array<bool>
    const pathTrace: array<ClockIdentity>
    var pathTraceCount: nat
    var gmPriority: PriorityVector
    var masterStepsRemoved: uint16
    var props: TimeProps
    var gmPresent: bool
    var gmIdentity: ClockIdentity
    var selState: SelectionState
    var selLast: SelectionState

    ghost predicate Valid()
      reads this
    {
      && 1 <= bppg.Length < MAX_PORT_NUMBER_LIMIT
      && selectedState.Length == reselect.Length == selected.Length == MAX_PORT_NUMBER_LIMIT
      && reselect != selected
      && pathTrace.Length == MAX_PATH_TRACE_N
      && pathTraceCount <= MAX_PATH_TRACE_N
      && systemPriority.root.clockIdentity == thisClock
      && systemPriority == SystemVector(systemPriority.root)
    }

    ghost function Snapshot(): Sys
      requires Valid()
      reads this, bppg, selectedState, reselect, selected, pathTrace
    {
      SysRecord(thisClock, systemPriority, sysProps, quickUpdate, bppg[..],
                selectedState[..], reselect[..], selected[..],
                gmPriority, masterStepsRemoved, props, gmPresent, gmIdentity, pathTrace[..pathTraceCount], selState, selLast)
    }

    constructor (root: SystemIdentity, sysProps: TimeProps, quickUpdate: bool, configs: seq<PortConfig>)
      requires 1 <= |configs| < MAX_PORT_NUMBER_LIMIT
      ensures Valid() && Snapshot() == NewSys(root, sysProps, quickUpdate, configs)
      ensures fresh(bppg) && fresh(selectedState) && fresh(reselect) && fresh(selected) && fresh(pathTrace)
    {
      thisClock := root.clockIdentity;
      systemPriority := SystemVector(root);
      this.sysProps, this.quickUpdate := sysProps, quickUpdate;
      bppg := new Port[|configs|](i requires 0 <= i < |configs| => InitialPort(configs[i]));
      selectedState := new PortState[MAX_PORT_NUMBER_LIMIT](_ => Unset);
      reselect := new bool[MAX_PORT_NUMBER_LIMIT](_ => false);
      selected := new bool[MAX_PORT_NUMBER_LIMIT](_ => false);
      pathTrace := new ClockIdentity[MAX_PATH_TRACE_N](_ => 0);
      pathTraceCount := 0;
      gmPriority, masterStepsRemoved, props, gmPresent := ZERO_VECTOR, 0, NO_PROPS, false;
      gmIdentity := root.clockIdentity;
      selState, selLast := SelInit, SelInit;
      new;
      ghost var s := NewSys(root, sysProps, quickUpdate, configs);
      assert bppg[..] == s.ports;
      assert selectedState[..] == s.selectedState;
      assert reselect[..] == s.reselect && selected[..] == s.selected;
    }

    // ---------------------------------------------------------------- port state selection

    /** updateStateDisabledTree */
    method UpdateStateDisabledTree()
      requires Valid()
      modifies this`pathTraceCount, selectedState, pathTrace
      ensures Valid() && Snapshot() == S.InitBridgeProc(old(Snapshot()))
    {
      var i := 0;
      while i < MAX_PORT_NUMBER_LIMIT
        modifies selectedState
        invariant 0 <= i <= MAX_PORT_NUMBER_LIMIT
        invariant forall j :: 0 <= j < i ==> selectedState[j] == DisabledPort
      {
        selectedState[i] := DisabledPort;
        i := i + 1;
      }
      pathTrace[0] := thisClock;
      pathTraceCount := 1;
      assert selectedState[..] == seq(MAX_PORT_NUMBER_LIMIT, i => DisabledPort);
    }

    method ClearReselectTree()
      requires Valid()
      modifies reselect
      ensures Valid() && Snapshot() == Inv.Cleared(old(Snapshot()))
    {
      var i := 0;
      while i < MAX_PORT_NUMBER_LIMIT
        invariant 0 <= i <= MAX_PORT_NUMBER_LIMIT
        invariant forall j :: 0 <= j < i ==> !reselect[j]
      {
        reselect[i] := false;
        i := i + 1;
      }
      assert reselect[..] == seq(MAX_PORT_NUMBER_LIMIT, i => false);
    }

    method SetSelectedTree()
      requires Valid()
      modifies selected
      ensures Valid() && Snapshot() == old(Snapshot()).(selected := seq(MAX_PORT_NUMBER_LIMIT, i => true))
    {
      var i := 0;
      while i < MAX_PORT_NUMBER_LIMIT
        invariant 0 <= i <= MAX_PORT_NUMBER_LIMIT
        invariant forall j :: 0 <= j < i ==> selected[j]
      {
        selected[i] := true;
        i := i + 1;
      }
      assert selected[..] == seq(MAX_PORT_NUMBER_LIMIT, i => true);
    }

    /** The path of an announce followed by this system's identity, as far as it fits. */
    method ExtendPathTrace(path: seq<ClockIdentity>)
      requires Valid()
      modifies this`pathTraceCount, pathTrace
      ensures Valid() && Snapshot() == old(Snapshot()).(pathTrace := S.ExtendedPath(path, thisClock))
    {
      var n := if |path| < MAX_PATH_TRACE_N then |path| else MAX_PATH_TRACE_N;
      if n + 1 <= MAX_PATH_TRACE_N {
        forall j | 0 <= j < n { pathTrace[j] := path[j]; }
        pathTrace[n] := thisClock;
        pathTraceCount := n + 1;
        assert pathTrace[..n + 1] == path[..n] + [thisClock];
      } else {
        pathTraceCount := 0;
      }
    }

    /** State and updtInfo of port `i`, whose path vector is `gmPathPriority`. */
    method AssignPortState(i: nat, gmPathPriority: PriorityVector)
      requires Valid() && 1 <= i < bppg.Length
      requires bppg[i].infoIs == Received ==> gmPathPriority == S.GmPath(bppg[i])
      modifies bppg, selectedState
      ensures var (st, upd) := S.NewPortState(old(Snapshot()), i);
              selectedState[..] == old(selectedState[..])[i := st] &&
              bppg[..] == old(bppg[..])[i := old(bppg[i]).(updtInfo := upd)]
    {
      var q := bppg[i];
      if q.infoIs == Disabled {
        selectedState[i] := DisabledPort;
        bppg[i] := q.(updtInfo := false);
      } else if q.infoIs == Aged {
        bppg[i] := q.(updtInfo := true);
        selectedState[i] := MasterPort;
      } else if q.infoIs == Mine {
        selectedState[i] := MasterPort;
        if q.masterPriority != q.portPriority || masterStepsRemoved != q.portStepsRemoved {
          bppg[i] := q.(updtInfo := true);
        }
      } else if gmPriority == gmPathPriority {
        selectedState[i] := SlavePort;
        bppg[i] := q.(updtInfo := false);
      } else {
        var c := ComparePriorityVectors(q.masterPriority, q.portPriority);
        if c != SuperiorPriority {
          selectedState[i] := PassivePort;
          bppg[i] := q.(updtInfo := false);
        } else {
          selectedState[i] := MasterPort;
          bppg[i] := q.(updtInfo := true);
        }
      }
    }

    /** portStateUpdate */
    method PortStateUpdate(i: nat, gmPathPriority: PriorityVector)
      requires Valid() && 1 <= i < bppg.Length
      requires bppg[i].infoIs == Received ==> gmPathPriority == S.GmPath(bppg[i])
      modifies this`pathTraceCount, bppg, selectedState, pathTrace
      ensures Valid() && Snapshot() == S.PortStateUpdate(old(Snapshot()), i)
    {
      var oldState := selectedState[i];
      AssignPortState(i, gmPathPriority);
      if selectedState[i] == SlavePort && oldState != SlavePort {
        ExtendPathTrace(bppg[i].ann.path);
      }
    }

    /** The path vector of every port. */
    method GmPathPriorities() returns (gmPath: array<PriorityVector>)
      requires Valid()
      ensures fresh(gmPath) && gmPath.Length == bppg.Length
      ensures forall i :: 0 <= i < bppg.Length ==> gmPath[i] == S.GmPath(bppg[i])
    {
      gmPath := new PriorityVector[bppg.Length](_ => WORST);
      var i := 0;
      while i < bppg.Length
        invariant 0 <= i <= bppg.Length
        invariant forall j :: 0 <= j < i ==> gmPath[j] == S.GmPath(bppg[j])
        invariant forall j :: i <= j < bppg.Length ==> gmPath[j] == WORST
      {
        var v := bppg[i].portPriority;
        if S.HasPortPriority(v) && bppg[i].infoIs != Aged {
          gmPath[i] := v.(stepsRemoved := (v.stepsRemoved + 1) % 0x1_0000);
        }
        i := i + 1;
      }
    }

    /** The grandmaster is the best of the system's own vector and the ports' path vectors. */
    method ChooseGm(gmPath: array<PriorityVector>)
      requires Valid() && gmPath.Length == bppg.Length
      requires forall i :: 0 <= i < bppg.Length ==> gmPath[i] == S.GmPath(bppg[i])
      modifies this`gmPriority, this`props
      ensures Valid() && Snapshot() == S.ChooseGm(old(Snapshot()))
    {
      ghost var s := Snapshot();
      gmPriority := systemPriority;
      props := sysProps;
      var i := 0;
      while i < bppg.Length
        invariant 0 <= i <= bppg.Length
        invariant S.Choice(gmPriority, props) == S.Best(s, i)
      {
        if bppg[i].infoIs != Disabled && gmPath[i].source.clockIdentity != thisClock {
          var c := ComparePriorityVectors(gmPath[i], gmPriority);
          if c == SuperiorPriority {
            gmPriority := gmPath[i];
            props := bppg[i].ann.props;
          }
        }
        i := i + 1;
      }
    }

    /** Every port's master vector is the grandmaster's, sent from that port. */
    method ComputeMasterPriorities()
      requires Valid()
      modifies this`masterStepsRemoved, bppg
      ensures Valid() && Snapshot() == S.WithMasterVectors(old(Snapshot()))
    {
      ghost var s := Snapshot();
      var i := 0;
      while i < bppg.Length
        modifies bppg
        invariant 0 <= i <= bppg.Length
        invariant forall j :: 0 <= j < i ==>
                    bppg[j] == old(bppg[j]).(masterPriority := S.MasterVector(s, s.gmPriority, j))
        invariant forall j :: i <= j < bppg.Length ==> bppg[j] == old(bppg[j])
      {
        bppg[i] := bppg[i].(masterPriority := gmPriority.(source := PortIdentity(thisClock, i), portNumber := i));
        i := i + 1;
      }
      masterStepsRemoved := gmPriority.stepsRemoved;
      assert bppg[..] == S.WithMasterVectors(s).ports;
    }

    /** The states of ports 1 and up, in port order. */
    method AssignPortStates(gmPath: array<PriorityVector>)
      requires Valid() && gmPath.Length == bppg.Length
      requires forall i :: 0 <= i < bppg.Length ==> gmPath[i] == S.GmPath(bppg[i])
      modifies this`pathTraceCount, bppg, selectedState, pathTrace
      ensures Valid() && Snapshot() == S.AssignPorts(old(Snapshot()), bppg.Length)
    {
      ghost var s := Snapshot();
      var i := 1;
      while i < bppg.Length
        invariant 1 <= i <= bppg.Length
        invariant Valid() && Snapshot() == S.AssignPorts(s, i)
        invariant forall j :: i <= j < bppg.Length ==> bppg[j] == old(bppg[j])
      {
        PortStateUpdate(i, gmPath[i]);
        i := i + 1;
      }
    }

    /** Whether some port 1 and up is the slave. */
    method SlavePortAvailable() returns (found: bool)
      requires Valid()
      ensures found == S.SlaveAmong(Snapshot(), bppg.Length)
    {
      found := false;
      var i := 1;
      while i < bppg.Length
        invariant 1 <= i <= bppg.Length
        invariant !found && !S.SlaveAmong(Snapshot(), i)
      {
        if selectedState[i] == SlavePort {
          found := true;
          break;
        }
        i := i + 1;
      }
    }

    /** Port 0, grandmaster presence, and the path trace of a grandmaster. */
    method AssignPortZero()
      requires Valid()
      modifies this`gmPresent, this`pathTraceCount, selectedState, pathTrace
      ensures Valid() && Snapshot() == S.AssignPortZero(old(Snapshot()))
    {
      gmPresent := gmPriority.root.priority1 < 255;
      var slavePortAvail := SlavePortAvailable();
      selectedState[0] := if slavePortAvail then PassivePort else SlavePort;
      if thisClock == gmPriority.root.clockIdentity {
        pathTrace[0] := thisClock;
        pathTraceCount := 1;
      }
    }

    /** updtStatesTree; the new grandmaster's identity when it changed. */
    method UpdtStatesTree() returns (changed: Option<ClockIdentity>)
      requires Valid()
      modifies this`gmPriority, this`props, this`masterStepsRemoved, this`gmPresent, this`pathTraceCount,
               bppg, selectedState, pathTrace
      ensures Valid() && Snapshot() == S.UpdtStatesTree(old(Snapshot()))
      ensures changed == if gmPriority == old(gmPriority) then None else Some(gmPriority.root.clockIdentity)
    {
      var gmPath := GmPathPriorities();
      var lastGmPriority := gmPriority;
      ChooseGm(gmPath);
      changed := if lastGmPriority != gmPriority then Some(gmPriority.root.clockIdentity) else None;
      ComputeMasterPriorities();
      ghost var t := Snapshot();
      assert forall i :: 0 <= i < bppg.Length ==> bppg[i] == t.ports[i];
      AssignPortStates(gmPath);
      S.AssignPortsFrame(t, bppg.Length);
      AssignPortZero();
    }

    /** state_selection_proc */
    method StateSelectionProc() returns (changed: Option<ClockIdentity>)
      requires Valid()
      modifies this`gmPriority, this`props, this`masterStepsRemoved, this`gmPresent, this`pathTraceCount,
               bppg, selectedState, reselect, selected, pathTrace
      ensures Valid() && Snapshot() == S.StateSelectionProc(old(Snapshot()))
      ensures changed == if gmPriority == old(gmPriority) then None else Some(gmPriority.root.clockIdentity)
    {
      ClearReselectTree();
      changed := UpdtStatesTree();
      SetSelectedTree();
    }

    /** state_selection_condition */
    method StateSelectionCondition() returns (next: SelectionState)
      requires Valid() && selState == SelStateSelection
      modifies this`selLast
      ensures Valid() && next == selState
      ensures Snapshot() == if S.AnyReselect(old(Snapshot())) then old(Snapshot()).(selLast := SelReaction)
                            else old(Snapshot())
    {
      var reselected := false;
      var i := 0;
      while i < MAX_PORT_NUMBER_LIMIT
        invariant 0 <= i <= MAX_PORT_NUMBER_LIMIT
        invariant reselected <==> exists j :: 0 <= j < i && reselect[j]
      {
        if reselect[i] { reselected := true; }
        i := i + 1;
      }
      assert reselected <==> S.AnyReselect(Snapshot());
      next := selState;
      if reselected {
        selLast := SelReaction;
        next := SelStateSelection;
      }
    }

    /** One pass of port_state_selection_sm. */
    method SelectIterate() returns (changed: Option<ClockIdentity>)
      requires Valid()
      modifies this, bppg, selectedState, reselect, selected, pathTrace
      ensures Valid() && Snapshot() == S.SelectIterate(old(Snapshot()))
      ensures changed == if gmPriority == old(gmPriority) then None else Some(gmPriority.root.clockIdentity)
      ensures changed.Some? ==> selLast == selState
    {
      changed := None;
      var stateChange := selLast != selState;
      selLast := selState;
      match selState
      case SelInit =>
        selState := SelInitBridge;
      case SelInitBridge =>
        if stateChange { UpdateStateDisabledTree(); }
        selState := SelStateSelection;
      case SelStateSelection =>
        if stateChange {
          S.ProcClearsReselect(Snapshot());
          changed := StateSelectionProc();
        }
        selState := StateSelectionCondition();
      case SelReaction =>
    }

    /** port_state_selection_sm: the new grandmaster's identity when it changed. */
    method PortStateSelectionSm() returns (changed: Option<ClockIdentity>)
      requires Valid()
      modifies this, bppg, selectedState, reselect, selected, pathTrace
      ensures Valid() && Snapshot() == S.SelectRun(old(Snapshot()))
      ensures changed == if gmPriority == old(gmPriority) then None else Some(gmPriority.root.clockIdentity)
    {
      changed := None;
      while true
        invariant Valid() && S.SelectRun(Snapshot()) == S.SelectRun(old(Snapshot()))
        invariant changed == None && gmPriority == old(gmPriority)
        decreases S.SelectMeasure(Snapshot())
      {
        ghost var s := Snapshot();
        changed := SelectIterate();
        if changed.Some? { return; }
        if selLast == selState { break; }
        S.SelectStepDecreases(s);
      }
    }

    // ---------------------------------------------------------------- port announce information

    ghost predicate ValidPort(p: nat)
      reads this, bppg
    {
      Valid() && 1 <= p < bppg.Length
    }

    ghost function View(p: nat): I.View
      requires ValidPort(p)
      reads this, bppg, selectedState, reselect, selected, pathTrace
    {
      I.ViewOf(Snapshot(), p)
    }

    ghost function Env(p: nat): I.Env
      requires ValidPort(p)
      reads this, bppg, selectedState, reselect, selected, pathTrace
    {
      I.EnvOf(Snapshot(), p)
    }

    method DisabledProc(p: nat, now: nat)
      requires ValidPort(p)
      modifies bppg, reselect, selected
      ensures ValidPort(p) && Snapshot() == I.Merge(old(Snapshot()), p, I.DisabledProc(old(View(p)), now))
    {
      bppg[p] := bppg[p].(rcvdMsg := false);
      bppg[p] := bppg[p].(timers := bppg[p].timers.(announceTime := now));
      bppg[p] := bppg[p].(infoIs := Disabled);
      reselect[p] := true;
      selected[p] := false;
    }

    method AgedProc(p: nat)
      requires ValidPort(p)
      modifies this`gmIdentity, bppg, reselect, selected
      ensures ValidPort(p) && Snapshot() == I.Merge(old(Snapshot()), p, I.AgedProc(old(View(p)), old(Env(p))))
    {
      bppg[p] := bppg[p].(infoIs := Aged);
      reselect[p] := true;
      selected[p] := false;
      bppg[p] := bppg[p].(ann := bppg[p].ann.(path := []));
      gmIdentity := thisClock;
    }

    method UpdateProc(p: nat)
      requires ValidPort(p)
      modifies bppg
      ensures ValidPort(p) && Snapshot() == I.Merge(old(Snapshot()), p, I.UpdateProc(old(View(p)), old(Env(p))))
    {
      bppg[p] := bppg[p].(portPriority := bppg[p].masterPriority, portStepsRemoved := masterStepsRemoved);
      bppg[p] := bppg[p].(updtInfo := false, infoIs := Mine, newInfo := true);
    }

    /** The comparisons of rcvdInfo. */
    method CompareWithStored(p: nat, m: PriorityVector) returns (info: RcvdInfo)
      requires ValidPort(p)
      ensures info == I.Classify(Env(p), bppg[p], m)
    {
      if selectedState[p] == DisabledPort { return OtherInfo; }
      if bppg[p].portPriority == m { return RepeatedMasterInfo; }
      var c := ComparePriorityVectors(m, bppg[p].portPriority);
      info := if c == SuperiorPriority then SuperiorMasterInfo else InferiorMasterInfo;
    }

    /** rcvdInfo: records the message's vector and compares it with the stored one. */
    method ReceiveProc(p: nat)
      requires ValidPort(p) && bppg[p].rcvdAnnounce.Some?
      modifies bppg
      ensures ValidPort(p) && Snapshot() == I.Merge(old(Snapshot()), p, I.ReceiveProc(old(View(p)), old(Env(p))))
    {
      var a := bppg[p].rcvdAnnounce.value;
      var m := PriorityVector(a.root, a.stepsRemoved, a.source, p);
      var info := CompareWithStored(p, m);
      bppg[p] := bppg[p].(messagePriority := m, rcvdInfo := info);
    }

    method SuperiorMasterPortProc(p: nat, now: nat)
      requires ValidPort(p) && bppg[p].rcvdAnnounce.Some?
      modifies this`gmIdentity, bppg, reselect, selected
      ensures ValidPort(p) && Snapshot() == I.Merge(old(Snapshot()), p, I.SuperiorProc(old(View(p)), now))
    {
      var a := bppg[p].rcvdAnnounce.value;
      bppg[p] := bppg[p].(portPriority := bppg[p].messagePriority, portStepsRemoved := a.stepsRemoved,
                          ann := Recorded(a.props, a.path));
      gmIdentity := a.root.clockIdentity;
      var interval := bppg[p].config.announceReceiptTimeout * I.LogToNsec(a.logMessageInterval);
      var syncInterval := bppg[p].config.syncReceiptTimeout * I.LogToNsec(bppg[p].config.logSyncInterval);
      bppg[p] := bppg[p].(timers := Timers(interval, now + interval, now + syncInterval), infoIs := Received,
                          rcvdMsg := false, rcvdAnnounce := None);
      reselect[p] := true;
      selected[p] := false;
    }

    method RepeatedMasterPortProc(p: nat, now: nat)
      requires ValidPort(p)
      modifies bppg
      ensures ValidPort(p) && Snapshot() == I.Merge(old(Snapshot()), p, I.RepeatedProc(old(View(p)), now))
    {
      var t := bppg[p].timers;
      bppg[p] := bppg[p].(timers := t.(announceTime := now + t.announceInterval));
      bppg[p] := bppg[p].(rcvdMsg := false, rcvdAnnounce := None);
    }

    method InferiorMasterOrOtherPortProc(p: nat)
      requires ValidPort(p)
      modifies bppg
      ensures ValidPort(p) && Snapshot() == I.Merge(old(Snapshot()), p, I.InferiorProc(old(View(p))))
    {
      bppg[p] := bppg[p].(rcvdMsg := false, rcvdAnnounce := None);
    }

    method InferiorMasterOrOtherPortCondition(p: nat) returns (next: InfoState)
      requires ValidPort(p)
      ensures next == I.InferiorCondition(View(p).port, Env(p))
    {
      if bppg[p].messagePriority.source == bppg[p].portPriority.source {
        if quickUpdate { return InAged; }
      }
      return InCurrent;
    }

    method CurrentCondition(p: nat, now: nat) returns (next: InfoState)
      requires ValidPort(p)
      ensures next == I.CurrentCondition(View(p), Env(p), now)
    {
      var q := bppg[p];
      if selected[p] && q.updtInfo { return InUpdate; }
      if q.infoIs == Received && (now >= q.timers.announceTime || (now >= q.timers.syncTime && gmPresent)) &&
         !q.updtInfo && !q.rcvdMsg {
        return InAged;
      }
      if q.rcvdMsg && !q.updtInfo { return InReceive; }
      return InCurrent;
    }

    /** The procedure of the state being entered. */
    method InfoProc(p: nat, now: nat)
      requires ValidPort(p) && I.Live(bppg[p])
      modifies this`gmIdentity, bppg, reselect, selected
      ensures ValidPort(p) && Snapshot() == I.Merge(old(Snapshot()), p, I.Proc(old(View(p)), old(Env(p)), now))
    {
      match bppg[p].state
      case InDisabled => DisabledProc(p, now);
      case InAged => AgedProc(p);
      case InUpdate => UpdateProc(p);
      case InReceive => ReceiveProc(p);
      case InSuperior => SuperiorMasterPortProc(p, now);
      case InRepeated => RepeatedMasterPortProc(p, now);
      case InInferior => InferiorMasterOrOtherPortProc(p);
      case _ =>
    }

    /** The condition of the state, once its procedure has run. */
    method InfoCondition(p: nat, now: nat) returns (next: InfoState)
      requires ValidPort(p)
      ensures next == I.Next(View(p), Env(p), now)
    {
      match bppg[p].state
      case InInit => next := InDisabled;
      case InDisabled => next := if bppg[p].enabled then InAged else InDisabled;
      case InAged => next := if selected[p] && bppg[p].updtInfo then InUpdate else InAged;
      case InUpdate => next := InCurrent;
      case InCurrent => next := CurrentCondition(p, now);
      case InReceive =>
        next := match bppg[p].rcvdInfo
          case RepeatedMasterInfo => InRepeated
          case SuperiorMasterInfo => InSuperior
          case _ => InInferior;
      case InSuperior => next := InCurrent;
      case InRepeated => next := InCurrent;
      case InInferior => next := InferiorMasterOrOtherPortCondition(p);
      case InReaction => next := InReaction;
    }

    /** The procedure, if the state changed. */
    method InfoEnterState(p: nat, now: nat)
      requires ValidPort(p) && I.Live(bppg[p])
      modifies this`gmIdentity, bppg, reselect, selected
      ensures ValidPort(p)
      ensures Snapshot() == I.Merge(old(Snapshot()), p, I.Entered(old(View(p)), old(Env(p)), now))
    {
      if bppg[p].lastState != bppg[p].state { InfoProc(p, now); }
    }

    /** The condition, and the move to the state it names. */
    method InfoMove(p: nat, state: InfoState, now: nat)
      requires ValidPort(p)
      modifies bppg
      ensures ValidPort(p)
      ensures Snapshot() == I.Merge(old(Snapshot()), p, I.Moved(old(View(p)), old(Env(p)), state, now))
    {
      var next := InfoCondition(p, now);
      bppg[p] := bppg[p].(lastState := state, state := next);
    }

    /** One pass of port_announce_information_sm for port `p`. */
    method InfoIterate(p: nat, now: nat)
      requires ValidPort(p) && I.Live(bppg[p])
      modifies this`gmIdentity, bppg, reselect, selected
      ensures ValidPort(p) && Snapshot() == I.InfoIterate(old(Snapshot()), p, now)
    {
      I.InfoIterateParts(Snapshot(), p, now);
      var state := bppg[p].state;
      InfoEnterState(p, now);
      InfoMove(p, state, now);
    }

    /** allstate_condition: a port that stopped being enabled is disabled first. */
    method InfoEnter(p: nat)
      requires ValidPort(p)
      modifies bppg
      ensures ValidPort(p) && Snapshot() == I.Merge(old(Snapshot()), p, I.Enter(old(View(p))))
    {
      if !bppg[p].enabled && bppg[p].infoIs != Disabled {
        bppg[p] := bppg[p].(state := InDisabled);
      }
    }

    /** port_announce_information_sm for port `p`. */
    method PortAnnounceInformationSm(p: nat, now: nat)
      requires ValidPort(p) && I.Live(bppg[p])
      modifies this`gmIdentity, bppg, reselect, selected
      ensures ValidPort(p) && Snapshot() == I.InfoRun(old(Snapshot()), p, now)
    {
      ghost var s, e := Snapshot(), Env(p);
      ghost var v := I.Enter(View(p));
      ghost var r := I.Run(View(p), e, now);
      InfoEnter(p);
      while true
        invariant ValidPort(p) && Snapshot() == I.Merge(s, p, v)
        invariant I.Live(v.port) && I.Loop(v, e, now) == r
        decreases I.Measure(v)
      {
        I.StepDecreases(v, e, now);
        I.InfoIterateMerged(s, p, v, now);
        assert bppg[p] == Snapshot().ports[p] == v.port;
        InfoIterate(p, now);
        v := I.Iterate(v, e, now);
        assert bppg[p] == Snapshot().ports[p] == v.port;
        if bppg[p].lastState == bppg[p].state { break; }
      }
    }

    // ---------------------------------------------------------------- announce reception

    /** qualifyAnnounce; an announce that qualifies updates the path trace. */
    method QualifyAnnounce(p: nat, a: Announce) returns (qualified: bool)
      requires ValidPort(p)
      modifies this`pathTraceCount, pathTrace
      ensures ValidPort(p) && qualified == I.Qualified(old(Snapshot()), a)
      ensures Snapshot() == if qualified then old(Snapshot()).(pathTrace := I.TraceAfterQualify(old(Snapshot()), p, a))
                            else old(Snapshot())
    {
      if a.source.clockIdentity == thisClock || a.stepsRemoved >= 255 { return false; }
      if a.tlvType == PATH_TRACE_TLV {
        var n := if |a.path| < MAX_PATH_TRACE_N then |a.path| else MAX_PATH_TRACE_N;
        var i := 0;
        while i < n
          invariant 0 <= i <= n
          invariant thisClock !in a.path[..i]
        {
          if a.path[i] == thisClock {
            assert a.path[i] in I.CheckedPath(a);
            return false;
          }
          i := i + 1;
        }
        if selectedState[p] == SlavePort { ExtendPathTrace(a.path); }
      } else {
        forall j | 0 <= j < MAX_PATH_TRACE_N { pathTrace[j] := 0; }
        assert pathTrace[..pathTraceCount] == seq(pathTraceCount, i => 0);
      }
      return true;
    }

    /** port_announce_receive_sm_recv_announce */
    method RecvAnnounce(p: nat, a: Announce)
      requires ValidPort(p)
      modifies this`pathTraceCount, bppg, pathTrace
      ensures ValidPort(p) && Snapshot() == I.RecvAnnounce(old(Snapshot()), p, a)
    {
      bppg[p] := bppg[p].(rcvdAnnounce := Some(a));
      if bppg[p].enabled {
        var qualified := QualifyAnnounce(p, a);
        bppg[p] := bppg[p].(rcvdMsg := qualified);
      }
    }

    // ---------------------------------------------------------------- the two machines together

    /** The do-while of sm_bmcs_perform. */
    method BmcsPerform(p: nat, now: nat)
      requires ValidPort(p) && Ready(Snapshot(), p) && I.Tracks(bppg[p]) && !Stuck(Snapshot(), p)
      modifies this, bppg, selectedState, reselect, selected, pathTrace
      ensures ValidPort(p) && Snapshot() == Perform(old(Snapshot()), p, now)
    {
      ghost var s := Snapshot();
      BodyFirst(s, p, now);
      var first := true;
      while first || bppg[p].updtInfo
        invariant ValidPort(p)
        invariant first ==> Snapshot() == s
        invariant !first ==> Loopable(Snapshot(), p) && Again(Snapshot(), p, now) == Perform(s, p, now)
        decreases first, Rank(Snapshot(), p)
      {
        ghost var t := Snapshot();
        if !first { BodyLoopable(t, p, now); }
        PortAnnounceInformationSm(p, now);
        var changed := PortStateSelectionSm();
        assert Snapshot() == Body(t, p, now);
        first := false;
      }
    }

    // ---------------------------------------------------------------- announce transmission

    /** The attribute bits of txAnnounce: only ever added to those `sent` before. */
    method RaiseFlags(sent: TimeProps) returns (flags: TimeProps)
      ensures flags == Path.Raised(sent, props)
    {
      flags := sent;
      if props.leap61 { flags := flags.(leap61 := true); }
      if props.leap59 { flags := flags.(leap59 := true); }
      if props.currentUtcOffsetValid { flags := flags.(currentUtcOffsetValid := true); }
      if props.ptpTimescale { flags := flags.(ptpTimescale := true); }
      if props.timeTraceable { flags := flags.(timeTraceable := true); }
      if props.frequencyTraceable { flags := flags.(frequencyTraceable := true); }
      flags := flags.(currentUtcOffset := props.currentUtcOffset, timeSource := props.timeSource);
    }

    /** idle_condition without its timer, then txAnnounce with the bits `sent` before. */
    method TransmitAnnounce(p: nat, sent: TimeProps, logInterval: int) returns (a: Option<Announce>)
      requires ValidPort(p)
      ensures a.Some? <==> selectedState[p] == MasterPort && selected[p] && !bppg[p].updtInfo
      ensures a.Some? <==> Path.MayTransmit(Snapshot(), p)
      ensures a.Some? ==> a.value == Path.TxAnnounce(Snapshot(), p, Path.Raised(sent, props), logInterval)
    {
      if selectedState[p] != MasterPort || !selected[p] || bppg[p].updtInfo { return None; }
      var flags := RaiseFlags(sent);
      a := Some(Announce(PortIdentity(thisClock, p), flags, bppg[p].masterPriority.root, masterStepsRemoved,
                         logInterval, PATH_TRACE_TLV, pathTrace[..pathTraceCount]));
    }

    // ---------------------------------------------------------------- the events

    /** An announce arrives (gptpnet_cb_recv). */
    method OnAnnounce(p: nat, a: Announce, now: nat)
      requires ValidPort(p) && Inv.Between(Snapshot())
      modifies this, bppg, selectedState, reselect, selected, pathTrace
      ensures ValidPort(p) && Inv.Between(Snapshot())
      ensures Snapshot() == Inv.Step(old(Snapshot()), Inv.Arrival(p, a, now))
    {
      Inv.ArrivalIsPerform(Snapshot(), p, a, now);
      RecvAnnounce(p, a);
      BmcsPerform(p, now);
    }

    /** A periodic call (gptpnet_cb_timeout). */
    method OnTimeout(p: nat, now: nat)
      requires ValidPort(p) && Inv.Between(Snapshot())
      modifies this, bppg, selectedState, reselect, selected, pathTrace
      ensures ValidPort(p) && Inv.Between(Snapshot())
      ensures Snapshot() == Inv.Step(old(Snapshot()), Inv.Timeout(p, now))
    {
      Inv.TimeoutIsPerform(Snapshot(), p, now);
      BmcsPerform(p, now);
    }
  }
}

/** What every run of the two machines keeps, whatever announces arrive and whenever ports come and go. */
module BmcsInvariants {
  import opened Priority
  import opened BmcsState
  import opened PortSelection
  import opened PortInformation
  import opened BmcsPerform

  // ------------------------------------------------------------------ one port

  /** `awake` tells whether a first selection has been made. */
  ghost predicate ViewInv(v: View, e: Env, awake: bool) {
    var q := v.port;
    && Live(q) && Tracks(q)
    && (if awake then v.reselect == !v.selected else !v.selected)
    && (q.rcvdMsg ==> q.rcvdAnnounce.value.source.clockIdentity != e.thisClock &&
                      q.rcvdAnnounce.value.stepsRemoved < 255)
    && (HandlesMessage(q.state) && q.state != InReceive ==>
          q.messagePriority == MessageVector(q.rcvdAnnounce.value, e.portNumber))
    && (q.infoIs == Received ==> FromPeer(q.portPriority, e))
    && (q.infoIs == Mine ==> v.selected && Published(v, e) && OwnVector(q.portPriority, e))
    && (q.state == InUpdate ==> UpdatePending(v))
    && (HandlesMessage(q.state) || (q.infoIs == Received && !v.selected) ==> !q.updtInfo)
    && (awake ==> OwnVector(q.masterPriority, e))
  }

  /** A vector received on this port from another system, with room for one more step. */
  ghost predicate FromPeer(v: PriorityVector, e: Env) {
    v.portNumber == e.portNumber && v.source.clockIdentity != e.thisClock && v.stepsRemoved < 255
  }

  /** A vector this system announces. */
  ghost predicate OwnVector(v: PriorityVector, e: Env) {
    v.source.clockIdentity == e.thisClock && v.stepsRemoved <= 255
  }

  /** A port that announces this system's own choice announces the current one, or is about to. */
  ghost predicate Published(v: View, e: Env) {
    v.port.updtInfo ||
    (v.port.portPriority == v.port.masterPriority && v.port.portStepsRemoved == e.masterStepsRemoved)
  }

  lemma IterateKeeps(v: View, e: Env, now: nat, awake: bool)
    requires ViewInv(v, e, awake)
    ensures ViewInv(Iterate(v, e, now), e, awake)
  {
    StepLive(v, e, now);
    IterateTracks(v, e, now);
  }

  /** Between the two ends of a call, a port still selected kept its information or updated it. */
  ghost predicate KeptOrUpdated(v: View, w: View) {
    var q, r := v.port, w.port;
    && r.masterPriority == q.masterPriority
    && (w.selected ==>
          v.selected &&
          ((r.infoIs == q.infoIs && r.portPriority == q.portPriority && r.updtInfo == q.updtInfo) ||
           (q.updtInfo && r.infoIs == Mine && !r.updtInfo)))
  }

  lemma IterateKeptOrUpdated(v: View, e: Env, now: nat, awake: bool)
    requires ViewInv(v, e, awake)
    ensures KeptOrUpdated(v, Iterate(v, e, now))
  {}

  lemma {:induction false} LoopKeeps(v: View, e: Env, now: nat, awake: bool)
    requires ViewInv(v, e, awake)
    ensures ViewInv(Loop(v, e, now), e, awake)
    ensures KeptOrUpdated(v, Loop(v, e, now))
    decreases Measure(v)
  {
    StepDecreases(v, e, now);
    IterateKeeps(v, e, now, awake);
    IterateKeptOrUpdated(v, e, now, awake);
    var w := Iterate(v, e, now);
    if !Done(w) { LoopKeeps(w, e, now, awake); }
  }

  lemma RunKeeps(v: View, e: Env, now: nat, awake: bool)
    requires ViewInv(v, e, awake) && AtRest(v.port)
    ensures ViewInv(Run(v, e, now), e, awake)
    ensures KeptOrUpdated(v, Run(v, e, now))
  {
    EnterTracks(v);
    assert ViewInv(Enter(v), e, awake);
    LoopKeeps(Enter(v), e, now, awake);
  }

  // ------------------------------------------------------------------ the whole system

  ghost predicate HasSelected(s: Sys) { s.selState == SelStateSelection }

  /** State and pending update of a selected port, from its information alone. */
  ghost predicate Coherent(q: Port, st: PortState, gm: PriorityVector) {
    match q.infoIs
    case Disabled => st == DisabledPort && !q.updtInfo
    case Aged => st == MasterPort && q.updtInfo
    case Mine => st == MasterPort
    case Received =>
      !Superior(GmPath(q), gm) &&
      if gm == GmPath(q) then st == SlavePort && !q.updtInfo
      else if Superior(q.masterPriority, q.portPriority) then st == MasterPort && q.updtInfo
      else st == PassivePort && !q.updtInfo
  }

  /** At most one slave among ports 1 and up; port 0 is the slave exactly when there is none,
      which is exactly when this system is its own grandmaster. */
  ghost predicate OneSlave(s: Sys) {
    && (forall i, j | 1 <= i < j < |s.ports| :: s.selectedState[i] != SlavePort || s.selectedState[j] != SlavePort)
    && (s.selectedState[0] == SlavePort <==> !SlaveAmong(s, |s.ports|))
    && (s.selectedState[0] == SlavePort || s.selectedState[0] == PassivePort)
    && (s.selectedState[0] == SlavePort <==> s.gmPriority == s.systemPriority)
  }

  ghost predicate PortInv(s: Sys, p: nat)
    requires IsPort(s, p)
  {
    var q := s.ports[p];
    && AtRest(q)
    && ViewInv(ViewOf(s, p), EnvOf(s, p), HasSelected(s))
    && (HasSelected(s) ==> q.masterPriority == MasterVector(s, s.gmPriority, p))
    && (HasSelected(s) && s.selected[p] ==> Coherent(q, s.selectedState[p], s.gmPriority))
  }

  ghost predicate SysInv(s: Sys) {
    && SelectAtRest(s)
    && s.ports[0].infoIs == Disabled
    && (forall p: nat :: IsPort(s, p) ==> PortInv(s, p))
    && (HasSelected(s) ==> s.masterStepsRemoved == s.gmPriority.stepsRemoved <= 255 && OneSlave(s))
    && (HasSelected(s) ==> !Superior(s.systemPriority, s.gmPriority))
  }

  // ------------------------------------------------------------------ the choice of the grandmaster

  /** The choice is one of the candidates, with that candidate's attributes, and none is better. */
  ghost predicate IsBestChoice(s: Sys, n: nat, c: Choice)
    requires n <= |s.ports|
  {
    && (c == Choice(s.systemPriority, s.sysProps) ||
        exists i :: 0 <= i < n && Candidate(s, i) && c == Choice(GmPath(s.ports[i]), s.ports[i].ann.props))
    && !Superior(s.systemPriority, c.vector)
    && (forall i :: 0 <= i < n && Candidate(s, i) ==> !Superior(GmPath(s.ports[i]), c.vector))
  }

  lemma {:induction false} BestIsBest(s: Sys, n: nat)
    requires n <= |s.ports|
    ensures IsBestChoice(s, n, Best(s, n))
    ensures Best(s, n).vector != WORST
  {
    if n == 0 {
      SuperiorTotal(s.systemPriority, s.systemPriority);
    } else {
      BestIsBest(s, n - 1);
      var b, c := Best(s, n - 1), Best(s, n);
      var g := GmPath(s.ports[n - 1]);
      if c != b {
        SuperiorTotal(g, b.vector);
        NothingWorse(b.vector);
        NotWorseTransitive(g, b.vector, s.systemPriority);
        forall i | 0 <= i < n && Candidate(s, i) ensures !Superior(GmPath(s.ports[i]), g) {
          if i == n - 1 { SuperiorTotal(g, g); } else { NotWorseTransitive(g, b.vector, GmPath(s.ports[i])); }
        }
        assert c == Choice(g, s.ports[n - 1].ann.props);
      } else {
        SuperiorTotal(g, b.vector);
      }
    }
  }

  /** Where stored vectors come from: peers on Received ports, this system on Mine ports. */
  ghost predicate Sourced(s: Sys) {
    && s.ports[0].infoIs == Disabled
    && (forall p: nat :: IsPort(s, p) ==> SourcedPort(s, p))
  }

  ghost predicate SourcedPort(s: Sys, p: nat)
    requires IsPort(s, p)
  {
    var q := s.ports[p];
    && (q.infoIs == Received ==> FromPeer(q.portPriority, EnvOf(s, p)))
    && (q.infoIs == Mine ==> q.portPriority.source.clockIdentity == s.thisClock)
  }

  /** A port that matches the grandmaster vector is a Received port, and the only one. */
  lemma GmPathIsReceived(s: Sys, p: nat)
    requires Sourced(s) && IsPort(s, p)
    requires Best(s, |s.ports|).vector == GmPath(s.ports[p])
    ensures GmPath(s.ports[p]).portNumber == s.ports[p].portPriority.portNumber
    ensures s.ports[p].infoIs == Received ==> GmPath(s.ports[p]).portNumber == p
  {
    BestIsBest(s, |s.ports|);
    assert SourcedPort(s, p);
  }

  /** The grandmaster vector is the system's own, or belongs to a Received port. */
  lemma GmOrigin(s: Sys) returns (p: nat)
    requires Sourced(s)
    ensures Best(s, |s.ports|).vector == s.systemPriority ||
            (IsPort(s, p) && s.ports[p].infoIs == Received && Best(s, |s.ports|).vector == GmPath(s.ports[p]))
    ensures Best(s, |s.ports|).vector.stepsRemoved <= 255
  {
    p := 0;
    BestIsBest(s, |s.ports|);
    var c := Best(s, |s.ports|);
    if c != Choice(s.systemPriority, s.sysProps) {
      p :| 0 <= p < |s.ports| && Candidate(s, p) && c == Choice(GmPath(s.ports[p]), s.ports[p].ann.props);
      assert p != 0;
      assert SourcedPort(s, p);
    }
  }

  lemma SelectionRoles(s: Sys)
    requires Sourced(s)
    ensures OneSlave(UpdtStatesTree(s))
  {
    var r := UpdtStatesTree(s);
    UpdtStatesTreeFrame(s);
    UpdtStatesTreeAt(s, 0);
    var gm := Best(s, |s.ports|).vector;
    forall i: nat | IsPort(s, i)
      ensures r.selectedState[i] == SlavePort <==> s.ports[i].infoIs == Received && gm == GmPath(s.ports[i])
    {
      UpdtStatesTreeAt(s, i);
      assert GmPath(Chosen(s).ports[i]) == GmPath(s.ports[i]);
    }
    forall i: nat, j: nat | 1 <= i < j < |s.ports|
      ensures r.selectedState[i] != SlavePort || r.selectedState[j] != SlavePort
    {
      if r.selectedState[i] == SlavePort && r.selectedState[j] == SlavePort {
        GmPathIsReceived(s, i);
        GmPathIsReceived(s, j);
      }
    }
    var p := GmOrigin(s);
    if gm == s.systemPriority {
      forall i: nat | IsPort(s, i) ensures r.selectedState[i] != SlavePort {
        if r.selectedState[i] == SlavePort { GmPathIsReceived(s, i); }
      }
    } else {
      assert r.selectedState[p] == SlavePort;
    }
  }

  /** The state given to a port whose vector is not better than the grandmaster's is coherent. */
  lemma NewStateCoheres(u: Sys, p: nat)
    requires IsPort(u, p)
    requires u.ports[p].infoIs == Received ==> !Superior(GmPath(u.ports[p]), u.gmPriority)
    ensures var (st, upd) := NewPortState(u, p);
            var q := u.ports[p].(updtInfo := upd);
            && Coherent(q, st, u.gmPriority)
            && (q.infoIs == Mine && !upd ==> q.portPriority == q.masterPriority && q.portStepsRemoved == u.masterStepsRemoved)
  {
    hide Superior;
  }

  lemma SelectionPort(s: Sys, p: nat)
    requires IsPort(s, p)
    requires s.ports[p].infoIs == Received ==> FromPeer(s.ports[p].portPriority, EnvOf(s, p))
    ensures var r := UpdtStatesTree(s);
            && IsPort(r, p)
            && r.ports[p].masterPriority == MasterVector(r, r.gmPriority, p)
            && Coherent(r.ports[p], r.selectedState[p], r.gmPriority)
            && (s.ports[p].infoIs == Mine ==> Published(ViewOf(r, p), EnvOf(r, p)))
            && EnvOf(r, p).portNumber == EnvOf(s, p).portNumber && r.thisClock == s.thisClock
  {
    hide UpdtStatesTree;
    hide Chosen;
    hide Best;
    hide Superior;
    hide NewPortState;
    hide Coherent;
    var r, u, q := UpdtStatesTree(s), Chosen(s), s.ports[p];
    UpdtStatesTreeAt(s, p);
    UpdtStatesTreeFrame(s);
    ChosenPort(s, p);
    BestIsBest(s, |s.ports|);
    NothingWorse(r.gmPriority);
    assert q.infoIs == Received ==> Candidate(s, p) || GmPath(q) == WORST;
    NewStateCoheres(u, p);
  }

  lemma ChosenPort(s: Sys, p: nat)
    requires p < |s.ports|
    ensures var u, gm := Chosen(s), Best(s, |s.ports|).vector;
            && u.ports[p] == s.ports[p].(masterPriority := MasterVector(s, gm, p))
            && u.gmPriority == gm && u.masterStepsRemoved == gm.stepsRemoved
  {
    hide Best;
  }

  function Cleared(s: Sys): Sys {
    s.(reselect := seq(MAX_PORT_NUMBER_LIMIT, i => false))
  }

  /** A port that a selection has given a coherent state. */
  lemma SelectedPort(t: Sys, r: Sys, p: nat, awake: bool)
    requires IsPort(t, p) && |r.ports| == |t.ports| && AtRest(t.ports[p]) && ViewInv(ViewOf(t, p), EnvOf(t, p), awake)
    requires r.ports[p] == t.ports[p].(masterPriority := r.ports[p].masterPriority, updtInfo := r.ports[p].updtInfo)
    requires HasSelected(r) && r.selected[p] && !r.reselect[p] && r.thisClock == t.thisClock
    requires r.ports[p].masterPriority == MasterVector(r, r.gmPriority, p) && r.gmPriority.stepsRemoved <= 255
    requires Coherent(r.ports[p], r.selectedState[p], r.gmPriority)
    requires r.ports[p].infoIs == Mine ==> Published(ViewOf(r, p), EnvOf(r, p))
    ensures PortInv(r, p)
  {
    hide Superior;
    hide GmPath;
  }

  /** One port across a selection. */
  lemma SelectionKeepsPort(t: Sys, p: nat, awake: bool)
    requires IsPort(t, p) && t.selState == SelStateSelection
    requires AtRest(t.ports[p]) && ViewInv(ViewOf(t, p), EnvOf(t, p), awake)
    requires Best(Cleared(t), |t.ports|).vector.stepsRemoved <= 255
    ensures IsPort(StateSelectionProc(t), p) && PortInv(StateSelectionProc(t), p)
  {
    hide UpdtStatesTree;
    hide Best;
    hide Superior;
    hide PortInv;
    hide Coherent;
    hide Published;
    var r := StateSelectionProc(t);
    var u := Cleared(t);
    assert r == UpdtStatesTree(u).(selected := r.selected);
    hide StateSelectionProc;
    SelectionAt(t, p);
    UpdtStatesTreeFrame(u);
    SelectionPort(u, p);
    ProcClearsReselect(t);
    assert r.reselect[p] ==> AnyReselect(r);
    PublishedSame(UpdtStatesTree(u), r, p);
    SelectedPort(t, r, p, awake);
  }

  lemma PublishedSame(u: Sys, r: Sys, p: nat)
    requires IsPort(u, p) && r == u.(selected := r.selected)
    ensures Published(ViewOf(u, p), EnvOf(u, p)) == Published(ViewOf(r, p), EnvOf(r, p))
  {}

  /** The whole system across a selection. */
  lemma SelectionKeepsRoles(t: Sys)
    requires t.selState == SelStateSelection && SelectAtRest(t) && Sourced(t)
    ensures var r := StateSelectionProc(t);
            && |r.ports| == |t.ports| && HasSelected(r) && SelectAtRest(r) && r.ports[0].infoIs == Disabled && OneSlave(r)
            && r.masterStepsRemoved == r.gmPriority.stepsRemoved <= 255 && !Superior(r.systemPriority, r.gmPriority)
            && !AnyReselect(r) && Best(Cleared(t), |t.ports|).vector.stepsRemoved <= 255
  {
    hide Superior;
    hide AnyReselect;
    hide SlaveAmong;
    var u := Cleared(t);
    var r := StateSelectionProc(t);
    forall p: nat | IsPort(u, p) ensures SourcedPort(u, p) { assert SourcedPort(t, p); }
    ProcClearsReselect(t);
    SelectionRoles(u);
    var j := GmOrigin(u);
    UpdtStatesTreeFrame(u);
    UpdtStatesTreeAt(u, 0);
    BestIsBest(u, |u.ports|);
    assert r == UpdtStatesTree(u).(selected := r.selected);
    SameRoles(UpdtStatesTree(u), r);
  }

  lemma SameRoles(u: Sys, r: Sys)
    requires r == u.(selected := r.selected)
    ensures OneSlave(u) == OneSlave(r)
  {}

  lemma SelectKeeps(s: Sys)
    requires SysInv(s)
    ensures SysInv(SelectRun(s)) && HasSelected(SelectRun(s))
    ensures !AnyReselect(SelectRun(s))
  {
    hide StateSelectionProc;
    hide OneSlave;
    hide Superior;
    hide Coherent;
    hide Tracks;
    SelectRunAwake(s);
    if !Settled(s) {
      var t := Awake(s);
      forall p: nat | IsPort(t, p) ensures SourcedPort(t, p) { assert PortInv(s, p); }
      SelectionKeepsRoles(t);
      forall p: nat | IsPort(StateSelectionProc(t), p) ensures PortInv(StateSelectionProc(t), p) {
        assert PortInv(s, p);
        assert IsPort(t, p);
        SelectionKeepsPort(t, p, HasSelected(s));
      }
    }
  }

  // ------------------------------------------------------------------ the events

  /** What happens to a time-aware system. A timeout and an arriving announce run the whole
      do-while; a call of one machine alone shows the states between the two. */
  datatype Event =
    | InfoCall(p: nat, now: nat)
    | SelectCall
    | Timeout(p: nat, now: nat)
    | Arrival(p: nat, a: Announce, now: nat)
    | Enable(p: nat, on: bool)
    | SyncSeen(time: nat)

  /** No announce waits between events. */
  ghost predicate Quiet(s: Sys) {
    forall p: nat :: IsPort(s, p) ==> !s.ports[p].rcvdMsg
  }

  ghost predicate QuietBut(s: Sys, p: nat) {
    forall i: nat :: IsPort(s, i) && s.ports[i].rcvdMsg ==> i == p && s.ports[p].enabled
  }

  lemma InfoKeepsPort(s: Sys, p: nat, now: nat, i: nat)
    requires SysInv(s) && IsPort(s, p) && IsPort(s, i)
    ensures IsPort(InfoRun(s, p, now), i) && PortInv(InfoRun(s, p, now), i)
  {
    assert PortInv(s, p) && PortInv(s, i);
    var r := InfoRun(s, p, now);
    if i == p {
      RunKeeps(ViewOf(s, p), EnvOf(s, p), now, HasSelected(s));
    } else {
      assert ViewOf(r, i).(gmIdentity := s.gmIdentity) == ViewOf(s, i);
    }
  }

  lemma InfoKeeps(s: Sys, p: nat, now: nat)
    requires SysInv(s) && IsPort(s, p)
    ensures SysInv(InfoRun(s, p, now)) && HasSelected(InfoRun(s, p, now)) == HasSelected(s)
  {
    var r := InfoRun(s, p, now);
    forall i: nat | IsPort(r, i) ensures PortInv(r, i) { InfoKeepsPort(s, p, now, i); }
  }

  /** A call leaves a message waiting only on a port whose information has just aged. */
  lemma RunQuiets(v: View, e: Env, now: nat, awake: bool)
    requires ViewInv(v, e, awake) && AtRest(v.port) && (v.port.rcvdMsg ==> v.port.enabled)
    ensures var w := Run(v, e, now);
            w.port.enabled == v.port.enabled && (w.port.rcvdMsg ==> v.port.rcvdMsg && w.port.state == InAged)
  {
    hide Loop;
    RunKeeps(v, e, now, awake);
    EnterTracks(v);
    LoopFacts(Enter(v), e, now);
    RunFacts(v, e, now);
  }

  lemma InfoQuiets(s: Sys, p: nat, now: nat)
    requires SysInv(s) && IsPort(s, p) && QuietBut(s, p)
    ensures var r := InfoRun(s, p, now);
            QuietBut(r, p) && (Quiet(r) || r.ports[p].state == InAged) && (Quiet(s) ==> Quiet(r))
  {
    assert PortInv(s, p);
    hide Run;
    hide ViewInv;
    hide SysInv;
    hide PortInv;
    RunQuiets(ViewOf(s, p), EnvOf(s, p), now, HasSelected(s));
    var r := InfoRun(s, p, now);
    assert forall i: nat :: IsPort(r, i) && i != p ==> r.ports[i] == s.ports[i];
  }

  /** The do-while can never be stuck on a port: an update is always due to be made. */
  lemma NeverStuck(s: Sys, p: nat)
    requires SysInv(s) && IsPort(s, p)
    ensures Ready(s, p) && Tracks(s.ports[p]) && !Stuck(s, p)
  {
    assert PortInv(s, p);
    if Settled(s) { assert !s.reselect[p]; }
  }

  lemma BodyKeeps(s: Sys, p: nat, now: nat)
    requires SysInv(s) && Ready(s, p) && QuietBut(s, p)
    ensures SysInv(Body(s, p, now)) && QuietBut(Body(s, p, now), p)
    ensures !Body(s, p, now).ports[p].updtInfo ==> Quiet(Body(s, p, now))
  {
    InfoKeeps(s, p, now);
    InfoQuiets(s, p, now);
    var w := InfoRun(s, p, now);
    SelectKeeps(w);
    var r := Body(s, p, now);
    forall i: nat | IsPort(r, i)
      ensures r.ports[i].rcvdMsg == w.ports[i].rcvdMsg && r.ports[i].enabled == w.ports[i].enabled
    {
      SelectKeepsPort(w, i);
    }
    SelectKeepsPort(w, p);
    assert PortInv(r, p);
    assert !r.reselect[p];
  }

  lemma {:induction false} AgainKeeps(s: Sys, p: nat, now: nat)
    requires SysInv(s) && Loopable(s, p) && QuietBut(s, p) && (!s.ports[p].updtInfo ==> Quiet(s))
    ensures SysInv(Again(s, p, now)) && Quiet(Again(s, p, now))
    decreases Rank(s, p)
  {
    if s.ports[p].updtInfo {
      BodyKeeps(s, p, now);
      BodyLoopable(s, p, now);
      AgainStep(s, p, now, 0);
      AgainKeeps(Body(s, p, now), p, now);
    }
  }

  lemma PerformKeeps(s: Sys, p: nat, now: nat)
    requires SysInv(s) && IsPort(s, p) && QuietBut(s, p)
    ensures Ready(s, p) && Tracks(s.ports[p]) && !Stuck(s, p)
    ensures SysInv(Perform(s, p, now)) && Quiet(Perform(s, p, now)) && HasSelected(Perform(s, p, now))
  {
    NeverStuck(s, p);
    BodyKeeps(s, p, now);
    BodyFirst(s, p, now);
    AgainKeeps(Body(s, p, now), p, now);
  }

  // ------------------------------------------------------------------ runs

  ghost predicate Between(s: Sys) { SysInv(s) && Quiet(s) }

  lemma ViewTakesAnnounce(v: View, e: Env, awake: bool, a: Announce, take: bool)
    requires ViewInv(v, e, awake) && AtRest(v.port) && !v.port.rcvdMsg
    requires take ==> a.source.clockIdentity != e.thisClock && a.stepsRemoved < 255
    ensures ViewInv(v.(port := v.port.(rcvdAnnounce := Some(a), rcvdMsg := take)), e, awake)
  {}

  /** Receiving does not bear on a port's state. */
  lemma CoherentSame(q: Port, r: Port, st: PortState, gm: PriorityVector)
    requires r == q.(rcvdAnnounce := r.rcvdAnnounce, rcvdMsg := r.rcvdMsg)
    ensures Coherent(r, st, gm) == Coherent(q, st, gm)
  {}

  lemma ArrivalKeepsPort(s: Sys, p: nat, a: Announce)
    requires Between(s) && IsPort(s, p)
    ensures IsPort(RecvAnnounce(s, p, a), p) && PortInv(RecvAnnounce(s, p, a), p)
  {
    hide Coherent;
    hide Tracks;
    assert PortInv(s, p);
    var r := RecvAnnounce(s, p, a);
    var take := s.ports[p].enabled && Qualified(s, a);
    ViewTakesAnnounce(ViewOf(s, p), EnvOf(s, p), HasSelected(s), a, take);
    CoherentSame(s.ports[p], r.ports[p], s.selectedState[p], s.gmPriority);
    assert ViewOf(r, p) == ViewOf(s, p).(port := r.ports[p]);
  }

  lemma ArrivalKeeps(s: Sys, p: nat, a: Announce)
    requires Between(s) && IsPort(s, p)
    ensures SysInv(RecvAnnounce(s, p, a)) && QuietBut(RecvAnnounce(s, p, a), p)
  {
    var r := RecvAnnounce(s, p, a);
    ArrivalKeepsPort(s, p, a);
    assert r == s.(ports := s.ports[p := r.ports[p]], pathTrace := r.pathTrace);
    assert r.ports[p].rcvdMsg ==> r.ports[p].enabled;
    forall i: nat | IsPort(r, i) ensures PortInv(r, i) {
      assert PortInv(s, i);
      if i != p { assert ViewOf(r, i) == ViewOf(s, i) && EnvOf(r, i) == EnvOf(s, i); }
    }
  }

  function Enabled(s: Sys, p: nat, on: bool): Sys
    requires IsPort(s, p)
  {
    SetPort(s, p, s.ports[p].(enabled := on))
  }

  function WithSyncTime(s: Sys, time: nat): Sys {
    s.(ports := seq(|s.ports|, i requires 0 <= i < |s.ports| =>
         if i == 0 then s.ports[0] else s.ports[i].(timers := s.ports[i].timers.(syncTime := time))))
  }

  lemma EnvironmentKeeps(s: Sys, r: Sys)
    requires Between(s) && r == s.(ports := r.ports) && |r.ports| == |s.ports|
    requires forall i: nat :: i < |s.ports| ==>
               r.ports[i] == s.ports[i].(enabled := r.ports[i].enabled, timers := r.ports[i].timers)
    ensures Between(r) && |r.ports| == |s.ports|
  {
    hide Superior;
    forall i: nat | IsPort(r, i) ensures PortInv(r, i) { assert PortInv(s, i); }
  }

  ghost function InfoCalled(s: Sys, p: nat, now: nat): (r: Sys)
    requires Between(s) && IsPort(s, p)
    ensures Between(r) && |r.ports| == |s.ports|
  {
    assert PortInv(s, p);
    InfoKeeps(s, p, now);
    InfoQuiets(s, p, now);
    InfoRun(s, p, now)
  }

  ghost function Handled(s: Sys, p: nat, now: nat): (r: Sys)
    requires SysInv(s) && IsPort(s, p) && QuietBut(s, p)
    ensures Between(r) && |r.ports| == |s.ports|
  {
    PerformKeeps(s, p, now);
    Perform(s, p, now)
  }

  ghost function Arrived(s: Sys, p: nat, a: Announce, now: nat): (r: Sys)
    requires Between(s) && IsPort(s, p)
    ensures Between(r) && |r.ports| == |s.ports|
  {
    ArrivalKeeps(s, p, a);
    Handled(RecvAnnounce(s, p, a), p, now)
  }

  ghost function Reenabled(s: Sys, p: nat, on: bool): (r: Sys)
    requires Between(s) && IsPort(s, p)
    ensures Between(r) && |r.ports| == |s.ports|
  {
    EnvironmentKeeps(s, Enabled(s, p, on));
    Enabled(s, p, on)
  }

  ghost function SyncTimed(s: Sys, time: nat): (r: Sys)
    requires Between(s)
    ensures Between(r) && |r.ports| == |s.ports|
  {
    EnvironmentKeeps(s, WithSyncTime(s, time));
    WithSyncTime(s, time)
  }

  /** One event. An event that names no port of the system does nothing. */
  ghost function Step(s: Sys, ev: Event): (r: Sys)
    requires Between(s)
    ensures Between(r) && |r.ports| == |s.ports|
  {
    match ev
    case InfoCall(p, now) => if IsPort(s, p) then InfoCalled(s, p, now) else s
    case SelectCall => SelectKeeps(s); SelectQuiet(s); SelectRun(s)
    case Timeout(p, now) => if IsPort(s, p) then Handled(s, p, now) else s
    case Arrival(p, a, now) => if IsPort(s, p) then Arrived(s, p, a, now) else s
    case Enable(p, on) => if IsPort(s, p) then Reenabled(s, p, on) else s
    case SyncSeen(time) => SyncTimed(s, time)
  }

  lemma ArrivalIsPerform(s: Sys, p: nat, a: Announce, now: nat)
    requires Between(s) && IsPort(s, p)
    ensures var t := RecvAnnounce(s, p, a);
            && Ready(t, p) && Tracks(t.ports[p]) && !Stuck(t, p)
            && Step(s, Arrival(p, a, now)) == Perform(t, p, now) && Between(Perform(t, p, now))
  {
    ArrivalKeeps(s, p, a);
    PerformKeeps(RecvAnnounce(s, p, a), p, now);
  }

  lemma TimeoutIsPerform(s: Sys, p: nat, now: nat)
    requires Between(s) && IsPort(s, p)
    ensures Ready(s, p) && Tracks(s.ports[p]) && !Stuck(s, p)
    ensures Step(s, Timeout(p, now)) == Perform(s, p, now) && Between(Perform(s, p, now))
  {
    PerformKeeps(s, p, now);
  }

  lemma SelectQuiet(s: Sys)
    requires Between(s)
    ensures Quiet(SelectRun(s)) && |SelectRun(s).ports| == |s.ports|
  {
    var r := SelectRun(s);
    SelectKeeps(s);
    if |r.ports| > 0 {
      SelectKeepsPort(s, 0);
      forall i: nat | IsPort(r, i) ensures !r.ports[i].rcvdMsg { SelectKeepsPort(s, i); }
    }
  }

  ghost function RunEvents(s: Sys, events: seq<Event>): (r: Sys)
    requires Between(s)
    ensures Between(r) && |r.ports| == |s.ports|
    decreases |events|
  {
    if events == [] then s else RunEvents(Step(s, events[0]), events[1..])
  }

  lemma InitialBetween(root: SystemIdentity, props: TimeProps, quick: bool, configs: seq<PortConfig>)
    requires 1 <= |configs| < MAX_PORT_NUMBER_LIMIT
    ensures Between(NewSys(root, props, quick, configs))
  {
    var s := NewSys(root, props, quick, configs);
    forall p: nat | IsPort(s, p) ensures PortInv(s, p) {
      assert s.ports[p] == InitialPort(configs[p]);
    }
  }

  /** Every state of every run, whatever announces arrive, whichever ports are enabled and
      whenever the machines are called. */
  lemma EveryRun(root: SystemIdentity, props: TimeProps, quick: bool, configs: seq<PortConfig>, events: seq<Event>)
    requires 1 <= |configs| < MAX_PORT_NUMBER_LIMIT
    ensures Between(NewSys(root, props, quick, configs))
    ensures SysInv(RunEvents(NewSys(root, props, quick, configs), events))
  {
    InitialBetween(root, props, quick, configs);
  }

  // ------------------------------------------------------------------ what that means

  /** A selection takes the best of the system's own vector and its candidates, attributes included. */
  lemma SelectionChoosesBest(s: Sys)
    ensures IsBestChoice(s, |s.ports|, Choice(UpdtStatesTree(s).gmPriority, UpdtStatesTree(s).props))
  {
    BestIsBest(s, |s.ports|);
    UpdtStatesTreeFrame(s);
  }

  /** In every run: one slave at most, and port 0 stands in exactly when this system is grandmaster. */
  lemma RunsHaveOneSlave(root: SystemIdentity, props: TimeProps, quick: bool, configs: seq<PortConfig>, events: seq<Event>)
    requires 1 <= |configs| < MAX_PORT_NUMBER_LIMIT
    ensures Between(NewSys(root, props, quick, configs))
    ensures var r := RunEvents(NewSys(root, props, quick, configs), events);
            HasSelected(r) ==> OneSlave(r)
  {
    EveryRun(root, props, quick, configs, events);
  }

  /** In every run a port waits for selection or its state follows from its information. */
  lemma RunsAreCoherent(root: SystemIdentity, props: TimeProps, quick: bool, configs: seq<PortConfig>,
                        events: seq<Event>, p: nat)
    requires 1 <= p < |configs| < MAX_PORT_NUMBER_LIMIT
    ensures Between(NewSys(root, props, quick, configs))
    ensures var r := RunEvents(NewSys(root, props, quick, configs), events);
            && IsPort(r, p)
            && (HasSelected(r) ==> (r.reselect[p] <==> !r.selected[p]))
            && (HasSelected(r) && r.selected[p] ==> Coherent(r.ports[p], r.selectedState[p], r.gmPriority))
  {
    EveryRun(root, props, quick, configs, events);
    var r := RunEvents(NewSys(root, props, quick, configs), events);
    assert PortInv(r, p);
  }

  /** In every run a port announces the current choice of its system or has an update due. */
  lemma RunsPublishTheChoice(root: SystemIdentity, props: TimeProps, quick: bool, configs: seq<PortConfig>,
                             events: seq<Event>, p: nat)
    requires 1 <= p < |configs| < MAX_PORT_NUMBER_LIMIT
    ensures Between(NewSys(root, props, quick, configs))
    ensures var r := RunEvents(NewSys(root, props, quick, configs), events);
            IsPort(r, p) && (r.ports[p].infoIs == Mine ==>
              r.ports[p].updtInfo ||
              (r.ports[p].portPriority == r.ports[p].masterPriority &&
               r.ports[p].portStepsRemoved == r.masterStepsRemoved &&
               r.ports[p].portPriority == MasterVector(r, r.gmPriority, p)))
  {
    EveryRun(root, props, quick, configs, events);
    var r := RunEvents(NewSys(root, props, quick, configs), events);
    assert PortInv(r, p);
  }

  /** In every run the do-while ends, whichever port it is called for and at whatever time. */
  lemma RunsTerminate(root: SystemIdentity, props: TimeProps, quick: bool, configs: seq<PortConfig>,
                      events: seq<Event>, p: nat, now: nat)
    requires 1 <= p < |configs| < MAX_PORT_NUMBER_LIMIT
    ensures Between(NewSys(root, props, quick, configs))
    ensures var r := RunEvents(NewSys(root, props, quick, configs), events);
            IsPort(r, p) && Ready(r, p) && Terminates(r, p, now)
  {
    EveryRun(root, props, quick, configs, events);
    var r := RunEvents(NewSys(root, props, quick, configs), events);
    NeverStuck(r, p);
    PerformTerminatesIff(r, p, now);
  }
}

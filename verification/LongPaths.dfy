/** A run of 180 systems in a line at whose end an announce is accepted by the system it started from. */
module LongPaths {
  import opened Words
  import opened Priority
  import opened BmcsState
  import opened PortSelection
  import opened PortInformation
  import opened BmcsPerform
  import opened BmcsInvariants
  import opened PathTrace
  import opened Settling

  // ------------------------------------------------------------------ the route a selection brings in

  lemma BecomesAt(s: Sys, i: nat)
    requires IsPort(s, i)
    ensures |AssignPorts(s, i).ports| == |s.ports|
    ensures BecomesSlave(AssignPorts(s, i), i) <==> NewPortState(s, i).0 == SlavePort && s.selectedState[i] != SlavePort
  {
    hide PortStateUpdate;
    hide Superior;
    AssignPortsAt(s, i, i);
    AssignPortsFrame(s, i);
  }

  /** If no port but `p` is made the slave, only `p` may bring in a route, and does so if it was not the slave before. */
  lemma {:induction false} AssignedFrom(s: Sys, n: nat, t: Trail, p: nat)
    requires 1 <= n <= |s.ports| && Fits(s, t) && IsPort(s, p)
    requires forall i: nat :: IsPort(s, i) ==> (NewPortState(s, i).0 == SlavePort <==> i == p)
    ensures AssignedRoute(s, n, t) == if p < n && s.selectedState[p] != SlavePort then t.ann[p] + [s.thisClock] else t.trace
  {
    hide NewPortState;
    hide BecomesSlave;
    if n > 1 {
      AssignPortsFrame(s, n - 1);
      BecomesAt(s, n - 1);
      AssignedFrom(s, n - 1, t, p);
    }
  }

  /** A selection that makes `p` the one slave of a system that is not grandmaster. */
  lemma SelectionFrom(s: Sys, t: Trail, p: nat)
    requires Fits(s, t) && IsPort(s, p)
    requires StateSelectionProc(s).gmPriority.root.clockIdentity != s.thisClock
    requires |StateSelectionProc(s).ports| == |s.ports|
    requires forall i: nat :: IsPort(s, i) ==> (StateSelectionProc(s).selectedState[i] == SlavePort <==> i == p)
    ensures SelectionRoute(s, t) == if s.selectedState[p] != SlavePort then t.ann[p] + [s.thisClock] else t.trace
  {
    var c := Cleared(s);
    var u := Chosen(c);
    assert StateSelectionProc(s) == UpdtStatesTree(c).(selected := StateSelectionProc(s).selected);
    AssignPortsFrame(u, |u.ports|);
    forall i: nat | IsPort(u, i) ensures NewPortState(u, i).0 == SlavePort <==> i == p { UpdtStatesTreeAt(c, i); }
    AssignedFrom(u, |u.ports|, t, p);
  }

  // ------------------------------------------------------------------ hearing a better grandmaster

  lemma LoopRouteStep(v: View, e: Env, now: nat, ann: Route, rcvd: Route)
    requires Live(v.port) && !Done(Iterate(v, e, now))
    ensures Live(Iterate(v, e, now).port)
    ensures LoopRoute(v, e, now, ann, rcvd) == LoopRoute(Iterate(v, e, now), e, now, if Records(v) then rcvd else ann, rcvd)
  {
    StepDecreases(v, e, now);
  }

  /** A superior announce is recorded with its route. */
  lemma SuperiorRecorded(v: View, e: Env, now: nat, ann: Route, rcvd: Route)
    requires Hears(v)
    requires Classify(e, v.port, MessageVector(v.port.rcvdAnnounce.value, e.portNumber)) == SuperiorMasterInfo
    requires now < now + v.port.config.announceReceiptTimeout * LogToNsec(v.port.rcvdAnnounce.value.logMessageInterval)
    requires e.gmPresent ==> v.port.config.syncReceiptTimeout * LogToNsec(v.port.config.logSyncInterval) > 0
    ensures LoopRoute(v, e, now, ann, rcvd) == rcvd
  {
    hide LogToNsec;
    hide Superior;
    var m := MessageVector(v.port.rcvdAnnounce.value, e.portNumber);
    var w := Iterate(v, e, now);
    assert w == v.(port := v.port.(state := InReceive));
    LoopRouteStep(v, e, now, ann, rcvd);
    var x := Iterate(w, e, now);
    assert x == v.(port := v.port.(messagePriority := m, rcvdInfo := SuperiorMasterInfo, lastState := InReceive, state := InSuperior));
    LoopRouteStep(w, e, now, ann, rcvd);
    var y := Iterate(x, e, now);
    assert y.port.state == InCurrent && y.port.lastState == InSuperior;
    LoopRouteStep(x, e, now, ann, rcvd);
    assert Done(Iterate(y, e, now));
  }

  lemma InfoTrailTakes(s: Sys, p: nat, x: Routed, now: nat, t: Trail)
    requires Between(s) && Rests(s, p) && s.ports[p].infoIs == Mine && MayTransmit(s, p) && s.gmPriority == s.systemPriority
    requires Convinces(s, p, x.a) && p < MAX_PORT_NUMBER_LIMIT && Fits(s, t)
    ensures var r, u := RecvAnnounce(s, p, x.a), ArrivalTrail(s, p, x, t);
            Live(r.ports[p]) && InfoTrail(r, p, now, u).ann[p] == x.route && InfoTrail(r, p, now, u).trace == t.trace
  {
    hide Superior;
    assert PortInv(s, p);
    var r := RecvAnnounce(s, p, x.a);
    var v, e := ViewOf(r, p), EnvOf(r, p);
    assert Hears(v);
    assert v.port.portPriority.root == s.systemPriority.root;
    assert Classify(e, v.port, MessageVector(x.a, p)) == SuperiorMasterInfo by { IsSuperior(v.port.portPriority, x.a, p); }
    SuperiorRecorded(v, e, now, t.ann[p], x.route);
  }

  lemma IsSuperior(v: PriorityVector, a: Announce, p: uint16)
    requires BetterIdentity(a.root, v.root)
    ensures Superior(MessageVector(a, p), v) && MessageVector(a, p) != v
  {
    IdentityTotal(a.root, v.root);
  }

  /** The path trace then comes by the route of the announce heard. */
  lemma ArrivalTrace(s: Sys, p: nat, x: Routed, now: nat, t: Trail)
    requires Between(s) && AllUnheard(s) && Rests(s, p) && MayTransmit(s, p) && s.gmPriority == s.systemPriority
    requires Convinces(s, p, x.a) && p < MAX_PORT_NUMBER_LIMIT && Fits(s, t) && x.a.root.clockIdentity != s.thisClock
    ensures StepTrail(s, Arrival(p, x.a, now), x.route, t).trace == x.route + [s.thisClock]
  {
    hide Run;
    hide LoopRoute;
    hide PortInv;
    hide StateSelectionProc;
    hide SelectionRoute;
    hide BetterIdentity;
    hide LogToNsec;
    var r, u := RecvAnnounce(s, p, x.a), ArrivalTrail(s, p, x, t);
    ArrivalKeeps(s, p, x.a);
    NeverStuck(r, p);
    HearingFollows(s, p, x.a, now);
    InfoTakesOver(s, p, x.a, now);
    InfoTrailTakes(s, p, x, now, t);
    InfoKeepsSelection(r, p, now);
    var w, y := InfoRun(r, p, now), InfoTrail(r, p, now, u);
    SelectRunAwake(w);
    assert Body(r, p, now) == StateSelectionProc(w);
    ArrivalOthers(s, p, x.a, now);
    SelectionFrom(w, y, p);
  }

  lemma ArrivalOthers(s: Sys, p: nat, a: Announce, now: nat)
    requires Between(s) && AllUnheard(s) && Rests(s, p) && MayTransmit(s, p) && s.gmPriority == s.systemPriority
    requires Convinces(s, p, a) && p < MAX_PORT_NUMBER_LIMIT
    ensures var r := Step(s, Arrival(p, a, now));
            forall i: nat :: IsPort(r, i) ==> (r.selectedState[i] == SlavePort <==> i == p)
  {
    hide Step;
    HearingFollows(s, p, a, now);
    BetterIsFollowed(Step(s, Arrival(p, a, now)), p, MessageVector(a, p));
  }

  // ------------------------------------------------------------------ polling another port

  /** A system that follows the better vector `v`, held on port `p`. */
  ghost predicate FollowsOn(s: Sys, p: nat, v: PriorityVector) {
    && SysInv(s) && HasSelected(s) && HoldsOnly(s, p, v) && s.selectedState[p] == SlavePort
    && BetterIdentity(v.root, s.systemPriority.root) && v.stepsRemoved < 255 && v.root.clockIdentity != s.thisClock
  }

  /** A pass for an enabled port `q` changes neither that nor the route of the path trace. */
  lemma BodyFollowsOn(s: Sys, q: nat, now: nat, t: Trail, p: nat, v: PriorityVector)
    requires FollowsOn(s, p, v) && Ready(s, q) && QuietBut(s, q) && q != p && s.ports[q].enabled && Fits(s, t)
    ensures FollowsOn(Body(s, q, now), p, v) && QuietBut(Body(s, q, now), q) && Body(s, q, now).ports[q].enabled
    ensures BodyTrail(s, q, now, t).trace == t.trace
  {
    hide Run;
    hide LoopRoute;
    hide PortInv;
    hide StateSelectionProc;
    hide SelectionRoute;
    hide BetterIdentity;
    NeverStuck(s, q);
    InfoKeepsSelection(s, q, now);
    BodyKeepsRest(s, q, now);
    BodyKeeps(s, q, now);
    BodyOfEnabled(s, q, now);
    var w, r := InfoRun(s, q, now), Body(s, q, now);
    assert HoldsOnly(r, p, v);
    BetterIsFollowed(r, p, v);
    SelectRunAwake(w);
    if !Settled(w) { SelectionFrom(w, InfoTrail(s, q, now, t), p); }
  }

  lemma {:induction false} AgainFollowsOn(s: Sys, q: nat, now: nat, t: Trail, p: nat, v: PriorityVector)
    requires FollowsOn(s, p, v) && Loopable(s, q) && QuietBut(s, q) && q != p && s.ports[q].enabled && Fits(s, t)
    ensures FollowsOn(Again(s, q, now), p, v) && AgainTrail(s, q, now, t).trace == t.trace
    decreases Rank(s, q)
  {
    hide Body;
    hide BodyTrail;
    hide FollowsOn;
    if s.ports[q].updtInfo {
      BodyFollowsOn(s, q, now, t, p, v);
      BodyLoopable(s, q, now);
      AgainFollowsOn(Body(s, q, now), q, now, BodyTrail(s, q, now, t), p, v);
    }
  }

  /** Polling an enabled port `q` of such a system makes it announce the same, with the route of its trace unchanged. */
  lemma PollingFollowsOn(s: Sys, q: nat, now: nat, t: Trail, p: nat, v: PriorityVector)
    requires Between(s) && FollowsOn(s, p, v) && IsPort(s, q) && q != p && s.ports[q].enabled && Fits(s, t)
    ensures var r := Step(s, Timeout(q, now));
            && Between(r) && FollowsOn(r, p, v) && MayTransmit(r, q)
            && r.gmPriority == v.(stepsRemoved := v.stepsRemoved + 1)
            && r.thisClock == s.thisClock
            && StepTrail(s, Timeout(q, now), [], t).trace == t.trace
  {
    hide Body;
    hide BodyTrail;
    hide Again;
    hide AgainTrail;
    hide PortInv;
    hide BetterIdentity;
    NeverStuck(s, q);
    BodyFollowsOn(s, q, now, t, p, v);
    BodyFirst(s, q, now);
    AgainFollowsOn(Body(s, q, now), q, now, BodyTrail(s, q, now, t), p, v);
    PerformRests(s, q, now);
    PerformKeepsRest(s, q, now);
    PerformKeeps(s, q, now);
    var r := Step(s, Timeout(q, now));
    BetterIsFollowed(r, p, v);
    MineMayTransmit(r, q);
  }

  // ------------------------------------------------------------------ the system that starts it

  /** A grandmaster's trace is its own. */
  lemma BodyOwn(s: Sys, p: nat, now: nat, t: Trail)
    requires SysInv(s) && Ready(s, p) && QuietBut(s, p) && s.ports[p].enabled && AllUnheard(s) && Fits(s, t)
    ensures AllUnheard(Body(s, p, now)) && SysInv(Body(s, p, now)) && QuietBut(Body(s, p, now), p)
    ensures Body(s, p, now).ports[p].enabled && HasSelected(Body(s, p, now)) && Body(s, p, now).thisClock == s.thisClock
    ensures s.selState == SelInit || t.trace == [s.thisClock] ==> BodyTrail(s, p, now, t).trace == [s.thisClock]
  {
    hide Run;
    hide LoopRoute;
    hide PortInv;
    hide StateSelectionProc;
    NeverStuck(s, p);
    InfoKeepsSelection(s, p, now);
    BodyKeepsRest(s, p, now);
    BodyKeeps(s, p, now);
    BodyOfEnabled(s, p, now);
    var w, r := InfoRun(s, p, now), Body(s, p, now);
    UnheardIsGrandmaster(r);
    SelectRunAwake(w);
    if !Settled(w) {
      var y := InfoTrail(s, p, now, t);
      SelectionOwn(Awake(w), if w.selState == SelInit then y.(trace := [w.thisClock]) else y);
    }
  }

  lemma SelectionOwn(s: Sys, t: Trail)
    requires Fits(s, t) && StateSelectionProc(s).gmPriority == StateSelectionProc(s).systemPriority
    ensures SelectionRoute(s, t) == [s.thisClock]
  {
    var c := Cleared(s);
    var u := Chosen(c);
    assert StateSelectionProc(s) == UpdtStatesTree(c).(selected := StateSelectionProc(s).selected);
    UpdtStatesTreeFrame(c);
    AssignPortsFrame(u, |u.ports|);
  }

  lemma {:induction false} AgainOwn(s: Sys, p: nat, now: nat, t: Trail)
    requires SysInv(s) && Loopable(s, p) && QuietBut(s, p) && s.ports[p].enabled && AllUnheard(s) && Fits(s, t)
    requires t.trace == [s.thisClock]
    ensures AgainTrail(s, p, now, t).trace == [s.thisClock]
    decreases Rank(s, p)
  {
    hide Body;
    hide BodyTrail;
    hide PortInv;
    if s.ports[p].updtInfo {
      BodyOwn(s, p, now, t);
      BodyLoopable(s, p, now);
      AgainOwn(Body(s, p, now), p, now, BodyTrail(s, p, now, t));
    }
  }

  lemma PollingOwn(s: Sys, root: SystemIdentity, p: nat, now: nat, t: Trail)
    requires Silent(s, root) && IsPort(s, p) && s.ports[p].enabled && s.selState == SelInit && Fits(s, t)
    ensures StepTrail(s, Timeout(p, now), [], t).trace == [s.thisClock]
  {
    hide Body;
    hide BodyTrail;
    hide PortInv;
    NeverStuck(s, p);
    BodyOwn(s, p, now, t);
    BodyFirst(s, p, now);
    AgainOwn(Body(s, p, now), p, now, BodyTrail(s, p, now, t));
  }

  // ------------------------------------------------------------------ the line

  const LENGTH: nat := MAX_PATH_TRACE_N + 1
  const CONFIG: PortConfig := PortConfig(3, 3, 0)
  const CONFIGS: seq<PortConfig> := [CONFIG, CONFIG, CONFIG]

  /** System 1 is the best. */
  function Id(k: ClockIdentity): SystemIdentity {
    SystemIdentity(if k == 1 then 1 else 2, 248, 254, 0, 248, k)
  }

  function NewNode(k: ClockIdentity): Node {
    Node(NewSys(Id(k), NO_PROPS, false, CONFIGS), Trail([], seq(3, i => []), seq(3, i => [])))
  }

  /** Systems 1 to LENGTH, just initialised, each with a port towards the one before and one towards the next. */
  function Line(): Network {
    Network(map k: ClockIdentity | 1 <= k <= LENGTH :: NewNode(k), {})
  }

  lemma LineIsFresh()
    ensures Fresh(Line()) && NetInv(Line()) && Reached(Line(), [], Line())
    ensures forall k: ClockIdentity :: 1 <= k <= LENGTH ==> k in Line().nodes && Line().nodes[k] == NewNode(k)
  {
    var n := Line();
    forall c | c in n.nodes ensures FreshNode(n.nodes[c], c) {
      var configs := CONFIGS;
      assert n.nodes[c].sys == NewSys(Id(c), NO_PROPS, false, configs);
      assert n.nodes[c].trail == Trail([], seq(|configs|, i => []), seq(|configs|, i => []));
    }
    FreshInv(n);
  }

  /** A system that is its own grandmaster, announcing on port 1, with port 2 enabled. */
  ghost predicate Waits(s: Sys, root: SystemIdentity) {
    && Silent(s, root) && |s.ports| == 3 && Rests(s, 1) && s.ports[1].infoIs == Mine && s.gmPriority == s.systemPriority
    && MayTransmit(s, 1) && s.ports[1].config == CONFIG && s.ports[2].enabled
  }

  lemma StartsWaiting(root: SystemIdentity)
    ensures var s := NewSys(root, NO_PROPS, false, CONFIGS);
            && Between(s) && Between(Step(s, Enable(1, true))) && Between(Step(Step(s, Enable(1, true)), Enable(2, true)))
            && Waits(Step(Step(Step(s, Enable(1, true)), Enable(2, true)), Timeout(1, 0)), root)
            && Step(Step(s, Enable(1, true)), Enable(2, true)).selState == SelInit
            && Step(Step(s, Enable(1, true)), Enable(2, true)).ports[1].enabled
            && Silent(Step(Step(s, Enable(1, true)), Enable(2, true)), root)
  {
    hide Between;
    hide Step;
    var s := NewSys(root, NO_PROPS, false, CONFIGS);
    NewIsSilent(root, NO_PROPS, false, CONFIGS);
    EnablingIsSilent(s, root, 1);
    var t := Step(s, Enable(1, true));
    EnablingIsSilent(t, root, 2);
    var u := Step(t, Enable(2, true));
    assert u.ports[1].enabled && u.ports[2].enabled && u.ports[1].config == CONFIG;
    PollingSilent(u, root, 1, 0);
  }

  /** An announce of system 1, as the system before sends it. */
  ghost predicate FromFirst(a: Announce, k: nat) {
    && a.root == Id(1) && a.stepsRemoved == k - 1 < 255 && a.source.clockIdentity == k && a.logMessageInterval == 0
    && CarriesPathTrace(a)
  }

  lemma WaitingIsConvinced(s: Sys, k: nat, a: Announce)
    requires 1 <= k < LENGTH && Waits(s, Id(k + 1)) && FromFirst(a, k) && k + 1 !in CheckedPath(a)
    ensures Convinces(s, 1, a)
  {
    assert LogToNsec(0) == 1_000_000_000;
  }

  /** A system that has taken it over. */
  ghost predicate Took(r: Sys, k: nat, x: Routed, u: Trail) {
    && Between(r) && Fits(r, u) && IsPort(r, 2) && r.ports[2].enabled && r.thisClock == k + 1
    && FollowsOn(r, 1, MessageVector(x.a, 1)) && u.trace == x.route + [k + 1]
  }

  lemma TakesOver(s: Sys, k: nat, x: Routed, t: Trail)
    requires 1 <= k < LENGTH && Waits(s, Id(k + 1)) && Fits(s, t) && FromFirst(x.a, k) && k + 1 !in CheckedPath(x.a)
    ensures Took(Step(s, Arrival(1, x.a, 0)), k, x, StepTrail(s, Arrival(1, x.a, 0), x.route, t))
  {
    hide Step;
    hide StepTrail;
    hide Convinces;
    hide PortInv;
    hide BetterIdentity;
    WaitingIsConvinced(s, k, x.a);
    HearingFollows(s, 1, x.a, 0);
    ArrivalTrace(s, 1, x, 0, t);
    BetterThanOthers(k + 1);
  }

  /** The next system takes it over and sends it on. */
  lemma Relays(r: Sys, k: nat, x: Routed, u: Trail)
    requires 1 <= k < LENGTH && Took(r, k, x, u) && FromFirst(x.a, k)
    ensures var q, v := Step(r, Timeout(2, 0)), StepTrail(r, Timeout(2, 0), [], u);
            && IsPort(q, 2) && MayTransmit(q, 2) && v.trace == x.route + [k + 1]
            && FromFirst(TxAnnounce(q, 2, NO_PROPS, 0), k + 1)
  {
    hide Step;
    hide StepTrail;
    var v := MessageVector(x.a, 1);
    PollingFollowsOn(r, 2, 0, u, 1, v);
    SendsOn(Step(r, Timeout(2, 0)), k, v);
  }

  lemma BetterThanOthers(k: nat)
    requires 1 < k <= LENGTH
    ensures BetterIdentity(Id(1), Id(k))
  {}

  lemma SendsOn(q: Sys, k: nat, v: PriorityVector)
    requires 1 <= k < LENGTH && SysInv(q) && HasSelected(q) && IsPort(q, 2) && q.thisClock == k + 1
    requires v.root == Id(1) && v.stepsRemoved == k - 1 && q.gmPriority == v.(stepsRemoved := v.stepsRemoved + 1)
    ensures FromFirst(TxAnnounce(q, 2, NO_PROPS, 0), k + 1)
  {
    assert PortInv(q, 2);
  }

  // ------------------------------------------------------------------ the run

  function Names(k: nat): Route
    requires k <= LENGTH
  {
    seq(k, i requires 0 <= i < k => i + 1)
  }

  /** The systems after `k` have not begun. */
  ghost predicate Untouched(m: Network, k: nat) {
    && m.nodes.Keys == Line().nodes.Keys
    && (forall j: ClockIdentity :: k < j <= LENGTH ==> j in m.nodes && m.nodes[j] == NewNode(j))
  }

  /** A run in which `x` came through systems 1 to `k`, and the others have not begun. */
  ghost predicate CameTo(events: seq<NetEvent>, m: Network, k: nat, x: Routed) {
    && 1 <= k <= LENGTH && NetInv(Line()) && Reached(Line(), events, m) && NetInv(m) && Untouched(m, k)
    && x in m.sent && x.route == Names(k) && FromFirst(x.a, k)
  }

  /** System `k` starts up. */
  lemma StartsIn(events: seq<NetEvent>, m: Network, k: ClockIdentity) returns (more: seq<NetEvent>, r: Network)
    requires NetInv(Line()) && Reached(Line(), events, m) && NetInv(m)
    requires 1 <= k <= LENGTH && k in m.nodes && m.nodes[k] == NewNode(k)
    ensures Reached(Line(), more, r) && NetInv(r)
    ensures r.sent == m.sent && k in r.nodes && r.nodes == m.nodes[k := r.nodes[k]]
    ensures Waits(r.nodes[k].sys, Id(k)) && r.nodes[k].trail.trace == [k]
  {
    hide NetInv;
    hide Reached;
    hide Waits;
    hide Step;
    hide StepTrail;
    hide NodeInv;
    hide Silent;
    hide Line;
    StartsWaiting(Id(k));
    more := events + [Local(k, Enable(1, true), [])];
    r := LocalThen(Line(), events, m, k, Enable(1, true), []);
    var q := LocalThen(Line(), more, r, k, Enable(2, true), []);
    more := more + [Local(k, Enable(2, true), [])];
    r := LocalThen(Line(), more, q, k, Timeout(1, 0), []);
    TrailFits(q, k);
    PollingOwn(q.nodes[k].sys, Id(k), 1, 0, q.nodes[k].trail);
    more := more + [Local(k, Timeout(1, 0), [])];
  }

  lemma TrailFits(n: Network, k: ClockIdentity)
    requires k in n.nodes && NodeInv(n, k)
    ensures Fits(n.nodes[k].sys, n.nodes[k].trail) && n.nodes[k].sys.thisClock == k
  {}

  /** System `k` announces on port `p` what came by systems 1 to `k`. */
  lemma Announces(events: seq<NetEvent>, m: Network, k: ClockIdentity, p: nat)
    returns (more: seq<NetEvent>, r: Network, x: Routed)
    requires NetInv(Line()) && Reached(Line(), events, m) && NetInv(m) && 1 <= k <= LENGTH
    requires Untouched(m, k)
    requires k in m.nodes && m.nodes[k].trail.trace == Names(k) && IsPort(m.nodes[k].sys, p) && MayTransmit(m.nodes[k].sys, p)
    requires FromFirst(TxAnnounce(m.nodes[k].sys, p, NO_PROPS, 0), k)
    ensures CameTo(more, r, k, x)
  {
    hide NetInv;
    hide Reached;
    hide NodeInv;
    hide FromFirst;
    var ev := Transmit(k, p, NO_PROPS, 0);
    x := Routed(TxAnnounce(m.nodes[k].sys, p, NO_PROPS, 0), m.nodes[k].trail.trace);
    ReachedThen(Line(), events, m, ev);
    more, r := events + [ev], NetStep(m, ev);
  }

  /** System 1 begins. */
  lemma First() returns (events: seq<NetEvent>, m: Network, x: Routed)
    ensures CameTo(events, m, 1, x)
  {
    LineIsFresh();
    hide NetInv;
    hide Reached;
    hide Line;
    hide NewNode;
    hide Waits;
    hide FromFirst;
    hide MayTransmit;
    events, m := StartsIn([], Line(), 1);
    SendsFirst(m.nodes[1].sys);
    events, m, x := Announces(events, m, 1, 1);
  }

  lemma SendsFirst(s: Sys)
    requires Waits(s, Id(1))
    ensures IsPort(s, 1) && MayTransmit(s, 1) && FromFirst(TxAnnounce(s, 1, NO_PROPS, 0), 1)
  {
    assert PortInv(s, 1);
  }

  /** The next system, started, takes over what came to the one before. */
  lemma HearsAndRelays(events: seq<NetEvent>, m: Network, k: nat, x: Routed) returns (more: seq<NetEvent>, r: Network)
    requires NetInv(Line()) && Reached(Line(), events, m) && NetInv(m)
    requires 1 <= k < LENGTH && k + 1 in m.nodes && Waits(m.nodes[k + 1].sys, Id(k + 1))
    requires x in m.sent && x.route == Names(k) && FromFirst(x.a, k)
    ensures Reached(Line(), more, r) && NetInv(r)
    ensures r.sent == m.sent && k + 1 in r.nodes && r.nodes == m.nodes[k + 1 := r.nodes[k + 1]]
    ensures var s := r.nodes[k + 1].sys;
            IsPort(s, 2) && MayTransmit(s, 2) && FromFirst(TxAnnounce(s, 2, NO_PROPS, 0), k + 1)
    ensures r.nodes[k + 1].trail.trace == Names(k + 1)
  {
    hide NetInv;
    hide Reached;
    hide Waits;
    hide Took;
    hide Step;
    hide StepTrail;
    hide NodeInv;
    hide FromFirst;
    hide Line;
    hide MayTransmit;
    var c := k + 1;
    NotOnPath(m, k, x);
    var n := LocalThen(Line(), events, m, c, Arrival(1, x.a, 0), x.route);
    TrailFits(m, c);
    TakesOver(m.nodes[c].sys, k, x, m.nodes[c].trail);
    more := events + [Local(c, Arrival(1, x.a, 0), x.route)];
    r := LocalThen(Line(), more, n, c, Timeout(2, 0), []);
    Relays(n.nodes[c].sys, k, x, n.nodes[c].trail);
    more := more + [Local(c, Timeout(2, 0), [])];
    assert Names(k + 1) == Names(k) + [k + 1];
  }

  /** Each system sends on what it heard from the one before. */
  lemma Next(events: seq<NetEvent>, m: Network, k: nat, x: Routed)
    returns (more: seq<NetEvent>, r: Network, y: Routed)
    requires CameTo(events, m, k, x) && k < LENGTH
    ensures CameTo(more, r, k + 1, y)
  {
    LineIsFresh();
    hide NetInv;
    hide Reached;
    hide Waits;
    hide FromFirst;
    hide MayTransmit;
    hide Line;
    hide NewNode;
    more, r := StartsIn(events, m, k + 1);
    more, r := HearsAndRelays(more, r, k, x);
    more, r, y := Announces(more, r, k + 1, 2);
  }

  lemma NotOnPath(m: Network, k: nat, x: Routed)
    requires 1 <= k < LENGTH && NetInv(m) && x in m.sent && x.route == Names(k)
    ensures k + 1 !in CheckedPath(x.a)
  {
    hide PathOf;
    assert GoodAnnounce(m.sent, x);
    ShortRoute(x.route);
    assert k + 1 !in Names(k);
  }

  lemma {:induction false} ComesTo(k: nat) returns (events: seq<NetEvent>, m: Network, x: Routed)
    requires 1 <= k <= LENGTH
    ensures CameTo(events, m, k, x)
  {
    hide CameTo;
    if k == 1 {
      events, m, x := First();
    } else {
      events, m, x := ComesTo(k - 1);
      events, m, x := Next(events, m, k - 1, x);
    }
  }

  /** The announce of the last system passed through system 1, and system 1 accepts it. */
  lemma AnnounceReturns() returns (events: seq<NetEvent>, m: Network, x: Routed)
    ensures Fresh(Line()) && NetInv(Line()) && Reached(Line(), events, m)
    ensures 1 in m.nodes && x in m.sent && PassedThrough(m.sent, x, 1) && Qualified(m.nodes[1].sys, x.a)
  {
    LineIsFresh();
    events, m, x := ComesTo(LENGTH);
    Accepts(m, x);
  }

  lemma FullRoute(route: Route)
    requires |route| == LENGTH
    ensures PathOf(route) == []
  {
    assert Emptied(route) == LENGTH;
  }

  lemma Accepts(m: Network, x: Routed)
    requires NetInv(m) && 1 in m.nodes && x in m.sent && x.route == Names(LENGTH) && FromFirst(x.a, LENGTH)
    ensures PassedThrough(m.sent, x, 1) && Qualified(m.nodes[1].sys, x.a)
  {
    hide SysPaths;
    hide Between;
    hide Emptied;
    hide PathOf;
    assert NodeInv(m, 1) && GoodAnnounce(m.sent, x);
    FullRoute(x.route);
    assert x.route[0] == 1;
    RouteListsSystems(m.sent, x, 1);
  }
}

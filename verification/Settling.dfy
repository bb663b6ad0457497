/** Two systems on a link settle: a run from their initial states leads to a quiescent network. */
module Settling {
  import opened Words
  import opened Priority
  import opened BmcsState
  import opened PortSelection
  import opened PortInformation
  import opened BmcsPerform
  import opened BmcsInvariants
  import opened PathTrace
  import opened Agreement

  // ------------------------------------------------------------------ a port that has heard nothing

  predicate Unheard(q: Port) { !q.rcvdMsg && q.infoIs != Received }

  lemma {:induction false} UnheardLoop(v: View, e: Env, now: nat)
    requires Live(v.port) && Unheard(v.port)
    ensures Unheard(Loop(v, e, now).port)
    decreases Measure(v)
  {
    StepDecreases(v, e, now);
    var w := Iterate(v, e, now);
    assert Unheard(w.port);
    if !Done(w) { UnheardLoop(w, e, now); }
  }

  /** What one pass of the do-while makes of an enabled port. */
  lemma BodyOfEnabled(s: Sys, p: nat, now: nat)
    requires Ready(s, p) && Tracks(s.ports[p]) && s.ports[p].enabled
    ensures var q := Body(s, p, now).ports[p];
            && q.enabled && (q.state == InAged || q.state == InCurrent)
            && (Unheard(s.ports[p]) ==> Unheard(q))
  {
    var v, e := ViewOf(s, p), EnvOf(s, p);
    RunFacts(v, e, now);
    if Unheard(v.port) { UnheardLoop(Enter(v), e, now); }
    InfoKeepsSelection(s, p, now);
    SelectKeepsPort(InfoRun(s, p, now), p);
  }

  lemma {:induction false} AgainOfEnabled(s: Sys, p: nat, now: nat)
    requires Loopable(s, p) && s.ports[p].enabled && (s.ports[p].state == InAged || s.ports[p].state == InCurrent)
    ensures var q := Again(s, p, now).ports[p];
            && q.enabled && (q.state == InAged || q.state == InCurrent)
            && (Unheard(s.ports[p]) ==> Unheard(q))
    decreases Rank(s, p)
  {
    hide Body;
    if s.ports[p].updtInfo {
      BodyOfEnabled(s, p, now);
      BodyLoopable(s, p, now);
      AgainStep(s, p, now, 0);
      AgainOfEnabled(Body(s, p, now), p, now);
    }
  }

  /** A settled system whose port `p` is at rest, enabled, with its information announced or received. */
  ghost predicate Rests(s: Sys, p: nat) {
    && Between(s) && IsPort(s, p) && HasSelected(s) && s.ports[p].enabled
    && s.ports[p].state == s.ports[p].lastState == InCurrent && !s.ports[p].updtInfo && s.selected[p]
    && (s.ports[p].infoIs == Mine || s.ports[p].infoIs == Received)
  }

  /** The do-while brings an enabled port to rest. */
  lemma PerformRests(s: Sys, p: nat, now: nat)
    requires SysInv(s) && IsPort(s, p) && QuietBut(s, p) && s.ports[p].enabled
    ensures Ready(s, p) && Tracks(s.ports[p]) && !Stuck(s, p)
    ensures Rests(Perform(s, p, now), p) && !AnyReselect(Perform(s, p, now))
    ensures Unheard(s.ports[p]) ==> Unheard(Perform(s, p, now).ports[p])
  {
    hide Body;
    hide Again;
    PerformKeeps(s, p, now);
    BodyFirst(s, p, now);
    BodyOfEnabled(s, p, now);
    AgainOfEnabled(Body(s, p, now), p, now);
    RestingPort(Perform(s, p, now), p);
  }

  lemma RestingPort(r: Sys, p: nat)
    requires SysInv(r) && IsPort(r, p) && HasSelected(r) && !AnyReselect(r) && !r.ports[p].updtInfo
    requires r.ports[p].enabled && (r.ports[p].state == InAged || r.ports[p].state == InCurrent)
    ensures r.ports[p].state == r.ports[p].lastState == InCurrent && r.selected[p]
    ensures r.ports[p].infoIs == Mine || r.ports[p].infoIs == Received
  {
    assert PortInv(r, p);
    assert !r.reselect[p];
  }

  // ------------------------------------------------------------------ the rest of the system

  /** The identity of the system stays, and what ports other than `p` hold. */
  ghost predicate KeepsRest(s: Sys, r: Sys, p: nat) {
    && r.systemPriority == s.systemPriority && r.thisClock == s.thisClock && |r.ports| == |s.ports|
    && (forall i: nat :: IsPort(s, i) && i != p ==>
          r.ports[i] == s.ports[i].(masterPriority := r.ports[i].masterPriority, updtInfo := r.ports[i].updtInfo))
    && (p < |s.ports| ==> r.ports[p].config == s.ports[p].config)
  }

  lemma {:induction false} LoopConfig(v: View, e: Env, now: nat)
    requires Live(v.port)
    ensures Loop(v, e, now).port.config == v.port.config
    decreases Measure(v)
  {
    StepDecreases(v, e, now);
    if !Done(Iterate(v, e, now)) { LoopConfig(Iterate(v, e, now), e, now); }
  }

  lemma SelectKeepsRest(s: Sys, p: nat)
    requires SelectAtRest(s)
    ensures KeepsRest(s, SelectRun(s), p)
  {
    hide StateSelectionProc;
    SelectRunAwake(s);
    SelectKeepsPort(s, 0);
    if p < |s.ports| { SelectKeepsPort(s, p); }
    if !Settled(s) { SelectionIdentity(Awake(s)); }
    forall i: nat | IsPort(s, i) && i != p
      ensures var r := SelectRun(s);
              r.ports[i] == s.ports[i].(masterPriority := r.ports[i].masterPriority, updtInfo := r.ports[i].updtInfo)
    {
      SelectKeepsPort(s, i);
    }
  }

  lemma SelectionIdentity(s: Sys)
    ensures StateSelectionProc(s).systemPriority == s.systemPriority && StateSelectionProc(s).thisClock == s.thisClock
  {
    UpdtStatesTreeFrame(Cleared(s));
  }

  lemma BodyKeepsRest(s: Sys, p: nat, now: nat)
    requires Ready(s, p)
    ensures KeepsRest(s, Body(s, p, now), p)
  {
    hide SelectRun;
    hide Loop;
    LoopConfig(Enter(ViewOf(s, p)), EnvOf(s, p), now);
    InfoKeepsSelection(s, p, now);
    SelectKeepsRest(InfoRun(s, p, now), p);
  }

  lemma {:induction false} AgainKeepsRest(s: Sys, p: nat, now: nat)
    requires Loopable(s, p)
    ensures KeepsRest(s, Again(s, p, now), p)
    decreases Rank(s, p)
  {
    hide Body;
    if s.ports[p].updtInfo {
      BodyKeepsRest(s, p, now);
      BodyLoopable(s, p, now);
      AgainStep(s, p, now, 0);
      AgainKeepsRest(Body(s, p, now), p, now);
    }
  }

  lemma PerformKeepsRest(s: Sys, p: nat, now: nat)
    requires Ready(s, p) && Tracks(s.ports[p]) && !Stuck(s, p)
    ensures KeepsRest(s, Perform(s, p, now), p)
  {
    hide Body;
    hide Again;
    BodyKeepsRest(s, p, now);
    BodyFirst(s, p, now);
    AgainKeepsRest(Body(s, p, now), p, now);
  }

  // ------------------------------------------------------------------ a system by itself

  ghost predicate AllUnheard(s: Sys) { forall i: nat :: IsPort(s, i) ==> Unheard(s.ports[i]) }

  /** A system that has heard nothing is its own grandmaster, once it has selected. */
  lemma UnheardIsGrandmaster(s: Sys)
    requires SysInv(s) && HasSelected(s) && !AnyReselect(s) && AllUnheard(s)
    ensures s.gmPriority == s.systemPriority
  {
    forall i: nat | IsPort(s, i) ensures s.selectedState[i] != SlavePort {
      assert PortInv(s, i);
      assert !s.reselect[i];
    }
  }

  /** A system whose ports were enabled, and which has heard nothing yet. */
  ghost predicate Silent(s: Sys, root: SystemIdentity) {
    Between(s) && AllUnheard(s) && s.systemPriority == SystemVector(root) && s.thisClock == root.clockIdentity
  }

  lemma NewIsSilent(root: SystemIdentity, props: TimeProps, quick: bool, configs: seq<PortConfig>)
    requires 1 <= |configs| < MAX_PORT_NUMBER_LIMIT
    ensures Silent(NewSys(root, props, quick, configs), root)
  {
    hide Between;
    InitialBetween(root, props, quick, configs);
    var s := NewSys(root, props, quick, configs);
    forall i: nat | IsPort(s, i) ensures Unheard(s.ports[i]) { assert s.ports[i] == InitialPort(configs[i]); }
  }

  lemma EnablingIsSilent(s: Sys, root: SystemIdentity, p: nat)
    requires Silent(s, root) && IsPort(s, p)
    ensures Silent(Step(s, Enable(p, true)), root) && Step(s, Enable(p, true)) == Enabled(s, p, true)
  {
    hide Between;
    assert Between(Step(s, Enable(p, true)));
  }

  /** Polling an enabled port of a silent system leaves it silent, its own grandmaster, announcing. */
  lemma PollingSilent(s: Sys, root: SystemIdentity, p: nat, now: nat)
    requires Silent(s, root) && IsPort(s, p) && s.ports[p].enabled
    ensures var r := Step(s, Timeout(p, now));
            && Silent(r, root) && KeepsRest(s, r, p) && Rests(r, p) && !AnyReselect(r)
            && r.ports[p].infoIs == Mine && r.gmPriority == r.systemPriority && MayTransmit(r, p)
  {
    hide Perform;
    hide PortInv;
    PerformRests(s, p, now);
    PerformKeepsRest(s, p, now);
    var r := Step(s, Timeout(p, now));
    assert r == Perform(s, p, now);
    PerformKeeps(s, p, now);
    assert AllUnheard(r);
    UnheardIsGrandmaster(r);
    MineMayTransmit(r, p);
  }

  lemma MineMayTransmit(r: Sys, p: nat)
    requires Rests(r, p) && r.ports[p].infoIs == Mine
    ensures MayTransmit(r, p)
  {
    assert PortInv(r, p);
  }

  // ------------------------------------------------------------------ a system that hears a better grandmaster

  /** Port `p` holds the vector `v`, and no other port has heard anything. */
  ghost predicate HoldsOnly(s: Sys, p: nat, v: PriorityVector) {
    && IsPort(s, p) && s.ports[p].infoIs == Received && s.ports[p].portPriority == v && HasPortPriority(v)
    && (forall i: nat :: IsPort(s, i) && i != p ==> Unheard(s.ports[i]))
  }

  /** If the vector is of a better grandmaster, it is followed. */
  lemma BetterIsFollowed(s: Sys, p: nat, v: PriorityVector)
    requires SysInv(s) && HasSelected(s) && !AnyReselect(s) && HoldsOnly(s, p, v)
    requires BetterIdentity(v.root, s.systemPriority.root) && v.stepsRemoved < 255
    ensures s.gmPriority == v.(stepsRemoved := v.stepsRemoved + 1)
    ensures s.selectedState[p] == SlavePort && !s.ports[p].updtInfo
    ensures forall i: nat :: IsPort(s, i) && i != p ==> s.selectedState[i] != SlavePort
  {
    forall i: nat | IsPort(s, i)
      ensures Coherent(s.ports[i], s.selectedState[i], s.gmPriority)
    {
      assert PortInv(s, i);
      assert !s.reselect[i];
    }
    assert Superior(GmPath(s.ports[p]), s.systemPriority);
    var i: nat :| 1 <= i < |s.ports| && s.selectedState[i] == SlavePort;
    assert i == p;
  }

  /** What an announce must be for the system to take it over on port `p`. */
  ghost predicate Convinces(s: Sys, p: nat, a: Announce)
    requires IsPort(s, p)
  {
    var c := s.ports[p].config;
    && Qualified(s, a) && BetterIdentity(a.root, s.systemPriority.root) && HasPortPriority(MessageVector(a, p))
    && c.announceReceiptTimeout * LogToNsec(a.logMessageInterval) > 0
    && c.syncReceiptTimeout * LogToNsec(c.logSyncInterval) > 0
  }

  /** The information machine takes it over. */
  lemma InfoTakesOver(s: Sys, p: nat, a: Announce, now: nat)
    requires Between(s) && Rests(s, p) && s.ports[p].infoIs == Mine && MayTransmit(s, p) && s.gmPriority == s.systemPriority
    requires Convinces(s, p, a) && p < MAX_PORT_NUMBER_LIMIT
    ensures var t := RecvAnnounce(s, p, a);
            && Live(t.ports[p])
            && var w := InfoRun(t, p, now);
               && w.ports[p].infoIs == Received && w.ports[p].portPriority == MessageVector(a, p)
               && !w.ports[p].rcvdMsg && w.reselect[p]
  {
    assert PortInv(s, p);
    var t := RecvAnnounce(s, p, a);
    var v, e := ViewOf(t, p), EnvOf(t, p);
    assert Hears(v);
    assert v.port.portPriority.root == s.systemPriority.root;
    SuperiorTakesOver(v, e, now);
  }

  /** One pass of the do-while is enough, and the system follows. */
  lemma ArrivalBody(s: Sys, p: nat, a: Announce, now: nat)
    requires Between(s) && AllUnheard(s) && Rests(s, p) && MayTransmit(s, p) && s.gmPriority == s.systemPriority
    requires Convinces(s, p, a) && p < MAX_PORT_NUMBER_LIMIT
    ensures var t := RecvAnnounce(s, p, a);
            && Ready(t, p)
            && var r := Body(t, p, now);
               && HasSelected(r) && !AnyReselect(r) && HoldsOnly(r, p, MessageVector(a, p)) && r.ports[p].enabled
               && SysInv(r) && QuietBut(r, p)
               && r.systemPriority == s.systemPriority && !r.ports[p].rcvdMsg
               && (r.ports[p].state == InAged || r.ports[p].state == InCurrent)
  {
    hide Run;
    hide SelectRun;
    hide PortInv;
    var t := RecvAnnounce(s, p, a);
    ArrivalKeeps(s, p, a);
    NeverStuck(t, p);
    InfoTakesOver(s, p, a, now);
    InfoKeepsSelection(t, p, now);
    SelectKeepsPort(InfoRun(t, p, now), p);
    BodyKeepsRest(t, p, now);
    BodyKeeps(t, p, now);
    BodyOfEnabled(t, p, now);
  }

  /** A better grandmaster's announce is followed: the port that heard it is the slave, and stores it. */
  lemma HearingFollows(s: Sys, p: nat, a: Announce, now: nat)
    requires Between(s) && AllUnheard(s) && Rests(s, p) && MayTransmit(s, p) && s.gmPriority == s.systemPriority
    requires Convinces(s, p, a) && p < MAX_PORT_NUMBER_LIMIT
    ensures var r, v := Step(s, Arrival(p, a, now)), MessageVector(a, p);
            && Between(r) && Rests(r, p) && !AnyReselect(r) && HoldsOnly(r, p, v)
            && r.gmPriority == v.(stepsRemoved := v.stepsRemoved + 1) && r.selectedState[p] == SlavePort
            && KeepsRest(s, r, p)
            && r == Body(RecvAnnounce(s, p, a), p, now)
  {
    hide Body;
    hide PortInv;
    hide BetterIdentity;
    hide QuietBut;
    hide LogToNsec;
    var t := RecvAnnounce(s, p, a);
    ArrivalIsPerform(s, p, a, now);
    ArrivalBody(s, p, a, now);
    var r := Body(t, p, now);
    BetterIsFollowed(r, p, MessageVector(a, p));
    BodyFirst(t, p, now);
    assert Perform(t, p, now) == r;
    RestingPort(r, p);
    ArrivalKeeps(s, p, a);
    PerformKeepsRest(t, p, now);
  }

  // ------------------------------------------------------------------ runs of networks

  lemma {:induction false} ReachedThen(n: Network, events: seq<NetEvent>, m: Network, ev: NetEvent)
    requires NetInv(n) && Reached(n, events, m) && NetInv(m) && Possible(m, ev)
    ensures Reached(n, events + [ev], NetStep(m, ev)) && NetInv(NetStep(m, ev))
    decreases |events|
  {
    hide NetInv;
    hide Possible;
    hide NetStep;
    NetStepKeeps(m, ev);
    if events == [] {
      assert [ev][1..] == [];
      assert Reached(NetStep(n, ev), [], NetStep(m, ev));
      assert events + [ev] == [ev];
    } else {
      NetStepKeeps(n, events[0]);
      ReachedThen(NetStep(n, events[0]), events[1..], m, ev);
      assert (events + [ev])[1..] == events[1..] + [ev];
    }
  }

  /** While nothing is sent, a path trace lists at most the system itself. */
  lemma FirstTrace(n: Network, c: ClockIdentity)
    requires NetInv(n) && c in n.nodes && n.sent == {}
    ensures forall d :: d in n.nodes[c].sys.pathTrace ==> d == c
  {
    hide PathOf;
    assert NodeInv(n, c);
    var r := n.nodes[c].trail.trace;
    assert |r| <= 1;
    ShortRoute(r);
  }

  function FreshPort(root: SystemIdentity, props: TimeProps, config: PortConfig): Node {
    Node(NewSys(root, props, false, [config, config]), Trail([], seq(2, i => []), seq(2, i => [])))
  }

  /** Two systems just initialised, with one port each. */
  function Pair(a: SystemIdentity, b: SystemIdentity, props: TimeProps, config: PortConfig): Network {
    Network(map[a.clockIdentity := FreshPort(a, props, config), b.clockIdentity := FreshPort(b, props, config)], {})
  }

  /** Their ports are linked. */
  function Link(a: ClockIdentity, s: Sys, b: ClockIdentity, u: Sys): Topology {
    Topology(map[a := s, b := u], map[End(a, 1) := End(b, 1), End(b, 1) := End(a, 1)])
  }

  lemma PairIsFresh(a: SystemIdentity, b: SystemIdentity, props: TimeProps, config: PortConfig)
    ensures Fresh(Pair(a, b, props, config)) && NetInv(Pair(a, b, props, config))
  {
    var n := Pair(a, b, props, config);
    forall c | c in n.nodes ensures FreshNode(n.nodes[c], c) {
      var root := if c == b.clockIdentity then b else a;
      var configs := [config, config];
      assert n.nodes[c].sys == NewSys(root, props, false, configs);
      assert n.nodes[c].trail == Trail([], seq(|configs|, i => []), seq(|configs|, i => []));
    }
    FreshInv(n);
  }

  /** Where the run of a system by itself leads. */
  ghost predicate Announcing(s: Sys, root: SystemIdentity, config: PortConfig) {
    && Silent(s, root) && |s.ports| == 2 && Rests(s, 1) && !AnyReselect(s) && s.ports[1].infoIs == Mine
    && s.gmPriority == s.systemPriority && MayTransmit(s, 1) && s.ports[1].config == config
  }

  lemma Starts(root: SystemIdentity, props: TimeProps, config: PortConfig, now: nat)
    ensures var s := NewSys(root, props, false, [config, config]);
            && Between(s) && Between(Step(s, Enable(1, true)))
            && Announcing(Step(Step(s, Enable(1, true)), Timeout(1, now)), root, config)
  {
    hide Between;
    hide Step;
    var s := NewSys(root, props, false, [config, config]);
    NewIsSilent(root, props, false, [config, config]);
    EnablingIsSilent(s, root, 1);
    var t := Step(s, Enable(1, true));
    assert t.ports[1].enabled && t.ports[1].config == config;
    PollingSilent(t, root, 1, now);
  }

  lemma LocalThen(n: Network, events: seq<NetEvent>, m: Network, c: ClockIdentity, ev: Event, route: Route)
    returns (r: Network)
    requires NetInv(n) && Reached(n, events, m) && NetInv(m) && c in m.nodes && FromNetwork(ev, route, m.sent)
    ensures Reached(n, events + [Local(c, ev, route)], r) && NetInv(r)
    ensures NodeInv(m, c) && c in r.nodes && r.sent == m.sent && r.nodes == m.nodes[c := r.nodes[c]]
    ensures r.nodes[c].sys == Step(m.nodes[c].sys, ev)
    ensures r.nodes[c].trail == StepTrail(m.nodes[c].sys, ev, route, m.nodes[c].trail)
  {
    hide Step;
    hide StepTrail;
    hide Between;
    hide PortPaths;
    hide GoodRoute;
    assert NodeInv(m, c);
    r := NetStep(m, Local(c, ev, route));
    ReachedThen(n, events, m, Local(c, ev, route));
  }

  lemma StartsThen(n: Network, events: seq<NetEvent>, m: Network, root: SystemIdentity, props: TimeProps,
                   config: PortConfig, now: nat)
    returns (more: seq<NetEvent>, r: Network)
    requires NetInv(n) && Reached(n, events, m) && NetInv(m) && root.clockIdentity in m.nodes
    requires m.nodes[root.clockIdentity].sys == NewSys(root, props, false, [config, config])
    ensures Reached(n, more, r) && NetInv(r) && root.clockIdentity in r.nodes
    ensures r.sent == m.sent && r.nodes == m.nodes[root.clockIdentity := r.nodes[root.clockIdentity]]
    ensures Announcing(r.nodes[root.clockIdentity].sys, root, config)
  {
    hide Announcing;
    hide Step;
    hide StepTrail;
    hide NodeInv;
    hide NetInv;
    hide Reached;
    var c := root.clockIdentity;
    Starts(root, props, config, now);
    r := LocalThen(n, events, m, c, Enable(1, true), []);
    more := events + [Local(c, Enable(1, true), [])];
    r := LocalThen(n, more, r, c, Timeout(1, now), []);
    more := more + [Local(c, Timeout(1, now), [])];
  }

  /** Both systems of the pair start up by themselves. */
  lemma PairStarts(a: SystemIdentity, b: SystemIdentity, props: TimeProps, config: PortConfig, now: nat)
    returns (events: seq<NetEvent>, m: Network)
    requires a.clockIdentity != b.clockIdentity
    ensures NetInv(Pair(a, b, props, config)) && Reached(Pair(a, b, props, config), events, m) && NetInv(m)
    ensures m.sent == {} && m.nodes.Keys == {a.clockIdentity, b.clockIdentity}
    ensures Announcing(m.nodes[a.clockIdentity].sys, a, config) && Announcing(m.nodes[b.clockIdentity].sys, b, config)
  {
    var n := Pair(a, b, props, config);
    PairIsFresh(a, b, props, config);
    hide Announcing;
    hide NetInv;
    events, m := StartsThen(n, [], n, a, props, config, now);
    events, m := StartsThen(n, events, m, b, props, config, now);
  }

  /** What a system by itself announces. */
  lemma AnnounceOf(s: Sys, root: SystemIdentity, config: PortConfig, flags: TimeProps)
    requires Announcing(s, root, config)
    ensures var a := TxAnnounce(s, 1, flags, 0);
            && a.root == root && a.stepsRemoved == 0 && a.source == PortIdentity(root.clockIdentity, 1)
            && a.path == s.pathTrace
  {
    assert PortInv(s, 1);
  }

  /** The other system follows what it hears from it. */
  ghost predicate Following(s: Sys, b: SystemIdentity, a: Announce) {
    && Between(s) && |s.ports| == 2 && Rests(s, 1) && !AnyReselect(s) && s.thisClock == b.clockIdentity
    && s.systemPriority == SystemVector(b) && s.ports[1].infoIs == Received
    && s.ports[1].portPriority == MessageVector(a, 1) && s.selectedState[1] == SlavePort
    && s.gmPriority.root == a.root
  }

  lemma Heeds(s: Sys, b: SystemIdentity, config: PortConfig, a: Announce, now: nat)
    requires Announcing(s, b, config) && BetterIdentity(a.root, b) && Qualified(s, a) && a.logMessageInterval == 0
    requires HasPortPriority(MessageVector(a, 1))
    requires config.announceReceiptTimeout > 0 && config.syncReceiptTimeout * LogToNsec(config.logSyncInterval) > 0
    ensures Following(Step(s, Arrival(1, a, now)), b, a)
  {
    hide Step;
    hide Between;
    hide BetterIdentity;
    assert LogToNsec(0) == 1_000_000_000;
    HearingFollows(s, 1, a, now);
  }

  lemma StillSystem(t: Topology, c: ClockIdentity, root: SystemIdentity)
    requires c in t.nodes && Between(t.nodes[c]) && |t.nodes[c].ports| == 2 && Rests(t.nodes[c], 1) && !AnyReselect(t.nodes[c])
    requires t.nodes[c].thisClock == c && t.nodes[c].systemPriority == SystemVector(root) && HasPortPriority(SystemVector(root))
    ensures Still(t, c)
  {}

  /** Two such systems. */
  ghost predicate Follower(s: Sys, a: SystemIdentity, config: PortConfig, u: Sys, b: SystemIdentity) {
    && a.clockIdentity != b.clockIdentity && HasPortPriority(SystemVector(a)) && HasPortPriority(SystemVector(b))
    && Announcing(s, a, config) && Following(u, b, TxAnnounce(s, 1, NO_PROPS, 0))
  }

  lemma PairIsStill(s: Sys, a: SystemIdentity, config: PortConfig, u: Sys, b: SystemIdentity)
    requires Follower(s, a, config, u, b)
    ensures var t := Link(a.clockIdentity, s, b.clockIdentity, u);
            Still(t, a.clockIdentity) && Still(t, b.clockIdentity)
  {
    hide Between;
    hide HasPortPriority;
    var t := Link(a.clockIdentity, s, b.clockIdentity, u);
    StillSystem(t, a.clockIdentity, a);
    StillSystem(t, b.clockIdentity, b);
  }

  lemma PairIsWired(a: ClockIdentity, s: Sys, b: ClockIdentity, u: Sys)
    requires a != b && |s.ports| == |u.ports| == 2
    ensures Wired(Link(a, s, b, u))
  {
    hide Wf;
    var t, e, f := Link(a, s, b, u), End(a, 1), End(b, 1);
    assert t.peer[e] == f && t.peer[f] == e && IsEnd(t, e) && IsEnd(t, f);
    forall g | g in t.peer ensures IsEnd(t, g) && t.peer[g] in t.peer && t.peer[t.peer[g]] == g {
      if g != e { assert g == f; }
    }
    forall g: End | IsEnd(t, g) ensures g in t.peer { assert g == e || g == f; }
  }

  lemma PairEnds(t: Topology, a: SystemIdentity, config: PortConfig, b: SystemIdentity)
    requires var e, f := End(a.clockIdentity, 1), End(b.clockIdentity, 1);
             && e in t.peer && t.peer[e] == f && f in t.peer && t.peer[f] == e
             && e.node in t.nodes && f.node in t.nodes && Still(t, e.node) && Still(t, f.node)
             && Follower(t.nodes[e.node], a, config, t.nodes[f.node], b)
    requires Wired(t)
    ensures StillEnd(t, End(a.clockIdentity, 1)) && StillEnd(t, End(b.clockIdentity, 1))
  {
    hide Between;
    hide Still;
    hide Wired;
    hide HasPortPriority;
    hide Superior;
    var heard := Offered(t, End(b.clockIdentity, 1));
    SuperiorTotal(heard, heard);
  }

  lemma PairIsConnected(a: ClockIdentity, s: Sys, b: ClockIdentity, u: Sys)
    ensures Connected(Link(a, s, b, u))
  {
    var t := Link(a, s, b, u);
    assert a in t.nodes;
    assert Adjacent(t, a, b) by { assert End(a, 1) in t.peer; }
    assert Adjacent(t, b, a) by { assert End(b, 1) in t.peer; }
    forall c, d | c in t.nodes && d in t.nodes ensures Reachable(t, c, d) {
      var w := if c == d then [c] else [c, d];
      assert Walk(t, w) && w[0] == c && w[|w| - 1] == d;
    }
  }

  /** Linked, they are at rest. */
  lemma PairIsQuiescent(s: Sys, a: SystemIdentity, config: PortConfig, u: Sys, b: SystemIdentity)
    requires Follower(s, a, config, u, b)
    ensures var t := Link(a.clockIdentity, s, b.clockIdentity, u); Quiescent(t) && Connected(t)
  {
    var t := Link(a.clockIdentity, s, b.clockIdentity, u);
    PairIsStill(s, a, config, u, b);
    PairIsWired(a.clockIdentity, s, b.clockIdentity, u);
    PairEnds(t, a, config, b);
    PairIsConnected(a.clockIdentity, s, b.clockIdentity, u);
    hide Follower;
    hide Still;
    hide StillEnd;
    hide Connected;
  }

  /** For any two systems of different identity there is a run from their initial states to a quiescent
      network, in which the worse follows the better. */
  lemma PairSettles(a: SystemIdentity, b: SystemIdentity, props: TimeProps, config: PortConfig, now: nat)
    returns (events: seq<NetEvent>, m: Network)
    requires a.clockIdentity != b.clockIdentity && BetterIdentity(a, b)
    requires HasPortPriority(SystemVector(a)) && HasPortPriority(SystemVector(b))
    requires config.announceReceiptTimeout > 0 && config.syncReceiptTimeout * LogToNsec(config.logSyncInterval) > 0
    ensures Fresh(Pair(a, b, props, config)) && NetInv(Pair(a, b, props, config))
    ensures Reached(Pair(a, b, props, config), events, m)
    ensures m.nodes.Keys == {a.clockIdentity, b.clockIdentity}
    ensures var t := Link(a.clockIdentity, m.nodes[a.clockIdentity].sys, b.clockIdentity, m.nodes[b.clockIdentity].sys);
            Quiescent(t) && Connected(t) && Gm(t, b.clockIdentity).root == a
  {
    var n := Pair(a, b, props, config);
    PairIsFresh(a, b, props, config);
    hide NetInv;
    hide Reached;
    hide Step;
    hide StepTrail;
    events, m := PairStarts(a, b, props, config, now);
    var s := m.nodes[a.clockIdentity].sys;
    FirstTrace(m, a.clockIdentity);
    AnnounceOf(s, a, config, NO_PROPS);
    var ev := Transmit(a.clockIdentity, 1, NO_PROPS, 0);
    ReachedThen(n, events, m, ev);
    var x := Routed(TxAnnounce(s, 1, NO_PROPS, 0), m.nodes[a.clockIdentity].trail.trace);
    var k := NetStep(m, ev);
    events := events + [ev];
    Heeds(k.nodes[b.clockIdentity].sys, b, config, x.a, now);
    m := LocalThen(n, events, k, b.clockIdentity, Arrival(1, x.a, now), x.route);
    events := events + [Local(b.clockIdentity, Arrival(1, x.a, now), x.route)];
    PairIsQuiescent(s, a, config, m.nodes[b.clockIdentity].sys, b);
  }
}

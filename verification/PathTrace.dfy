/** Loop freedom of the path trace over every run of a network: any number of systems, any links,
    announces delivered late, repeatedly, out of order, to any port, or never. */
module PathTrace {
  import opened Priority
  import opened BmcsState
  import opened PortSelection
  import opened PortInformation
  import opened BmcsPerform
  import opened BmcsInvariants

  // ------------------------------------------------------------------ transmission

  /** A port announces when its state is settled as master and no update is due
      (idle_condition in port_announce_transmit_sm.c, without its timer). */
  predicate MayTransmit(s: Sys, p: nat)
    requires IsPort(s, p)
  {
    s.selectedState[p] == MasterPort && s.selected[p] && !s.ports[p].updtInfo
  }

  /** The announce a port sends (txAnnounce); `flags` holds the attribute bits as sent. */
  function TxAnnounce(s: Sys, p: nat, flags: TimeProps, logInterval: int): Announce
    requires IsPort(s, p)
  {
    Announce(PortIdentity(s.thisClock, p),
             flags.(currentUtcOffset := s.props.currentUtcOffset, timeSource := s.props.timeSource),
             s.ports[p].masterPriority.root, s.masterStepsRemoved, logInterval, PATH_TRACE_TLV, s.pathTrace)
  }

  /** Attribute bits once those of `props` are added to those already `sent`. */
  function Raised(sent: TimeProps, props: TimeProps): TimeProps {
    TimeProps(sent.leap61 || props.leap61, sent.leap59 || props.leap59,
              sent.currentUtcOffsetValid || props.currentUtcOffsetValid, sent.ptpTimescale || props.ptpTimescale,
              sent.timeTraceable || props.timeTraceable, sent.frequencyTraceable || props.frequencyTraceable,
              props.currentUtcOffset, props.timeSource)
  }

  // ------------------------------------------------------------------ the path trace a selection leaves

  /** Of several ports given a state, only one that becomes the slave brings in its path. */
  lemma {:induction false} AssignTrace(s: Sys, n: nat, q: nat)
    requires 1 <= n <= |s.ports| && IsPort(s, q)
    requires forall i :: 1 <= i < n && i != q ==> NewPortState(s, i).0 != SlavePort
    ensures AssignPorts(s, n).pathTrace ==
              if q < n && NewPortState(s, q).0 == SlavePort && s.selectedState[q] != SlavePort
              then ExtendedPath(s.ports[q].ann.path, s.thisClock) else s.pathTrace
  {
    hide NewPortState;
    hide ExtendedPath;
    if n > 1 {
      AssignTrace(s, n - 1, q);
      AssignPortsAt(s, n - 1, n - 1);
      AssignPortsFrame(s, n - 1);
      SameNewState(s, AssignPorts(s, n - 1), n - 1);
      PortStateUpdateAt(AssignPorts(s, n - 1), n - 1, n - 1);
    }
  }

  /** A selection makes the path trace that of the port that becomes the slave, with this system added or,
      when it is full, empty; leaves it while the same port stays the slave; and makes it this system alone
      when that is the grandmaster. */
  lemma TraceOnSelection(s: Sys, q: nat)
    requires IsPort(s, q)
    requires forall i: nat :: IsPort(s, i) && i != q ==> StateSelectionProc(s).selectedState[i] != SlavePort
    ensures var r, path := StateSelectionProc(s), s.ports[q].ann.path;
            r.pathTrace ==
              if r.gmPriority.root.clockIdentity == s.thisClock then [s.thisClock]
              else if r.selectedState[q] == SlavePort && s.selectedState[q] != SlavePort then
                if |path| < 179 then path + [s.thisClock] else []
              else s.pathTrace
  {
    var c := Cleared(s);
    var u := Chosen(c);
    var t := UpdtStatesTree(c);
    assert StateSelectionProc(s).pathTrace == t.pathTrace && StateSelectionProc(s).selectedState == t.selectedState;
    forall i: nat | IsPort(s, i) ensures t.selectedState[i] == NewPortState(u, i).0 { UpdtStatesTreeAt(c, i); }
    AssignTrace(u, |u.ports|, q);
    AssignPortsFrame(u, |u.ports|);
    UpdtStatesTreeFrame(c);
    if |s.ports[q].ann.path| < 179 {
      assert s.ports[q].ann.path[..|s.ports[q].ann.path|] == s.ports[q].ann.path;
    }
  }

  // ------------------------------------------------------------------ the attributes announced

  /** The attribute bits sent after announces with the attributes of the first `n` of `all`. */
  function SentBits(all: seq<TimeProps>, n: nat): TimeProps
    requires n <= |all|
  {
    if n == 0 then NO_PROPS else Raised(SentBits(all, n - 1), all[n - 1])
  }

  /** Each bit once sent is sent for ever; UTC offset and time source are those of the last announce. */
  lemma {:induction false} BitsAreKept(all: seq<TimeProps>, n: nat)
    requires n <= |all|
    ensures var b := SentBits(all, n);
            && (b.leap61 <==> exists i :: 0 <= i < n && all[i].leap61)
            && (b.leap59 <==> exists i :: 0 <= i < n && all[i].leap59)
            && (b.currentUtcOffsetValid <==> exists i :: 0 <= i < n && all[i].currentUtcOffsetValid)
            && (b.ptpTimescale <==> exists i :: 0 <= i < n && all[i].ptpTimescale)
            && (b.timeTraceable <==> exists i :: 0 <= i < n && all[i].timeTraceable)
            && (b.frequencyTraceable <==> exists i :: 0 <= i < n && all[i].frequencyTraceable)
            && (n > 0 ==> b.currentUtcOffset == all[n - 1].currentUtcOffset && b.timeSource == all[n - 1].timeSource)
  {
    if n > 0 { BitsAreKept(all, n - 1); }
  }

  /** Every bit that `sent` has, `own` has. */
  predicate NoOtherBits(sent: TimeProps, own: TimeProps) {
    && (sent.leap61 ==> own.leap61) && (sent.leap59 ==> own.leap59)
    && (sent.currentUtcOffsetValid ==> own.currentUtcOffsetValid) && (sent.ptpTimescale ==> own.ptpTimescale)
    && (sent.timeTraceable ==> own.timeTraceable) && (sent.frequencyTraceable ==> own.frequencyTraceable)
  }

  /** So a port announces the attributes of its grandmaster exactly when it has not sent a bit before that
      these do not have; and everything else as the system has it. */
  lemma AnnouncesOwnAttributes(s: Sys, p: nat, sent: TimeProps, logInterval: int)
    requires IsPort(s, p)
    ensures var u := s.props;
            TxAnnounce(s, p, sent, logInterval).props ==
              sent.(currentUtcOffset := u.currentUtcOffset, timeSource := u.timeSource)
    ensures var a := TxAnnounce(s, p, Raised(sent, s.props), logInterval);
            && (a.props == s.props <==> NoOtherBits(sent, s.props))
            && a.props.currentUtcOffset == s.props.currentUtcOffset && a.props.timeSource == s.props.timeSource
            && a.source == PortIdentity(s.thisClock, p) && a.root == s.ports[p].masterPriority.root
            && a.stepsRemoved == s.masterStepsRemoved && a.path == s.pathTrace && a.tlvType == 8
  {}

  /** For instance a port that has announced a leap second of one grandmaster announces it of the next. */
  lemma LeapIsKept(s: Sys, p: nat, old_: TimeProps, logInterval: int)
    requires IsPort(s, p) && old_.leap61 && !s.props.leap61
    ensures TxAnnounce(s, p, Raised(SentBits([old_], 1), s.props), logInterval).props.leap61
  {
    BitsAreKept([old_], 1);
  }

  // ------------------------------------------------------------------ routes

  /** The systems a path came by, in order. Unlike the path, a route is never emptied. */
  type Route = seq<ClockIdentity>

  /** An announce as sent, and the route of its path. */
  datatype Routed = Routed(a: Announce, route: Route)

  /** How much of a route came before its path was last emptied: a path of MAX_PATH_TRACE_N entries
      is not extended but emptied, so every MAX_PATH_TRACE_N + 1 systems. */
  function Emptied(route: Route): (n: nat)
    ensures n <= |route| <= n + MAX_PATH_TRACE_N
  {
    |route| - |route| % (MAX_PATH_TRACE_N + 1)
  }

  /** The path at the end of a route. */
  function PathOf(route: Route): (path: seq<ClockIdentity>)
    ensures |path| <= MAX_PATH_TRACE_N
  {
    route[Emptied(route)..]
  }

  /** A path is extended, or emptied, as its route goes on. */
  lemma PathExtends(route: Route, here: ClockIdentity)
    ensures PathOf(route + [here]) == ExtendedPath(PathOf(route), here)
  {
    if |PathOf(route)| < MAX_PATH_TRACE_N {
      assert Emptied(route + [here]) == Emptied(route);
      assert PathOf(route)[..|PathOf(route)|] == PathOf(route);
    }
  }

  /** No path is emptied within the path at the end of a route. */
  lemma EmptiedPrefix(route: Route, n: nat)
    requires Emptied(route) <= n <= |route|
    ensures Emptied(route[..n]) == Emptied(route) && PathOf(route[..n]) == PathOf(route)[..n - Emptied(route)]
  {
    var q := |route| / (MAX_PATH_TRACE_N + 1);
    assert Emptied(route) == q * (MAX_PATH_TRACE_N + 1);
    assert n / (MAX_PATH_TRACE_N + 1) == q;
  }

  lemma PathParts(route: Route)
    ensures |PathOf(route)| == |route| - Emptied(route)
    ensures forall k :: 0 <= k < |PathOf(route)| ==> PathOf(route)[k] == route[Emptied(route) + k]
  {
    hide Emptied;
  }

  lemma ShortRoute(route: Route)
    requires |route| <= MAX_PATH_TRACE_N
    ensures PathOf(route) == route
  {
    assert Emptied(route) == 0;
  }

  ghost predicate NoDuplicates(path: seq<ClockIdentity>) {
    forall i, j | 0 <= i < j < |path| :: path[i] != path[j]
  }

  ghost predicate SentRoute(sent: set<Routed>, route: Route) {
    exists x :: x in sent && x.route == route
  }

  /** A route that ends in `last`, which took it over from an announce whose path it was not in. */
  ghost predicate GoodRoute(sent: set<Routed>, route: Route, last: ClockIdentity) {
    route != [] ==>
      && route[|route| - 1] == last
      && last !in PathOf(route[..|route| - 1])
      && (|route| >= 2 ==> SentRoute(sent, route[..|route| - 1]))
  }

  ghost predicate GoodAnnounce(sent: set<Routed>, x: Routed) {
    x.a.tlvType == PATH_TRACE_TLV && x.a.path == PathOf(x.route) && GoodRoute(sent, x.route, x.a.source.clockIdentity)
  }

  ghost predicate GoodSent(sent: set<Routed>) {
    forall x :: x in sent ==> GoodAnnounce(sent, x)
  }

  /** A path taken over from an announce that has not been here since its path was emptied. */
  ghost predicate Foreign(sent: set<Routed>, path: seq<ClockIdentity>, route: Route, here: ClockIdentity) {
    path == PathOf(route) && here !in path && (route == [] || SentRoute(sent, route))
  }

  lemma ExtendForeign(sent: set<Routed>, path: seq<ClockIdentity>, route: Route, here: ClockIdentity)
    requires Foreign(sent, path, route, here)
    ensures ExtendedPath(path, here) == PathOf(route + [here]) && GoodRoute(sent, route + [here], here)
  {
    PathExtends(route, here);
    assert (route + [here])[..|route|] == route;
  }

  /** Each system on a route announced the route up to itself. */
  lemma {:induction false} RouteIsAnnounced(sent: set<Routed>, x: Routed, k: nat) returns (y: Routed)
    requires GoodSent(sent) && x in sent && k < |x.route|
    ensures y in sent && y.route == x.route[..k + 1] && y.a.source.clockIdentity == x.route[k]
    decreases |x.route|
  {
    hide Emptied;
    hide PathOf;
    assert GoodAnnounce(sent, x);
    if k + 1 == |x.route| {
      y := x;
      assert x.route[..k + 1] == x.route;
    } else {
      var z :| z in sent && z.route == x.route[..|x.route| - 1];
      y := RouteIsAnnounced(sent, z, k);
      assert z.route[..k + 1] == x.route[..k + 1];
    }
  }

  lemma {:induction false} PathDistinct(sent: set<Routed>, route: Route, last: ClockIdentity)
    requires GoodSent(sent) && GoodRoute(sent, route, last)
    ensures NoDuplicates(PathOf(route))
    decreases |route|
  {
    hide Emptied;
    hide PathOf;
    if route == [] {
      ShortRoute(route);
    } else {
      var r := route[..|route| - 1];
      assert route == r + [last];
      PathExtends(r, last);
      if r == [] {
        ShortRoute(r);
      } else {
        var x :| x in sent && x.route == r;
        assert GoodAnnounce(sent, x);
        PathDistinct(sent, r, x.a.source.clockIdentity);
      }
    }
  }

  // ------------------------------------------------------------------ the routes a system holds

  /** Routes of the path trace, and for each port of the announce recorded last and of the one received last. */
  datatype Trail = Trail(trace: Route, ann: seq<Route>, rcvd: seq<Route>)

  predicate Fits(s: Sys, t: Trail) { |t.ann| == |t.rcvd| == |s.ports| }

  /** The announce received is recorded when SUPERIOR_MASTER_PORT is entered, and only then. */
  predicate Records(v: View) { v.port.state == InSuperior && v.port.lastState != InSuperior }

  function LoopRoute(v: View, e: Env, now: nat, ann: Route, rcvd: Route): Route
    requires Live(v.port)
    decreases Measure(v)
  {
    StepDecreases(v, e, now);
    var w, r := Iterate(v, e, now), if Records(v) then rcvd else ann;
    if Done(w) then r else LoopRoute(w, e, now, r, rcvd)
  }

  function InfoTrail(s: Sys, p: nat, now: nat, t: Trail): (u: Trail)
    requires IsPort(s, p) && Live(s.ports[p]) && Fits(s, t)
    ensures Fits(s, u)
  {
    t.(ann := t.ann[p := LoopRoute(Enter(ViewOf(s, p)), EnvOf(s, p), now, t.ann[p], t.rcvd[p])])
  }

  /** Each port that becomes the slave brings in the path it recorded. */
  function AssignedRoute(s: Sys, n: nat, t: Trail): Route
    requires 1 <= n <= |s.ports| && Fits(s, t)
  {
    if n == 1 then t.trace
    else if BecomesSlave(AssignPorts(s, n - 1), n - 1) then t.ann[n - 1] + [s.thisClock]
    else AssignedRoute(s, n - 1, t)
  }

  /** A grandmaster starts a path of its own. */
  function SelectionRoute(s: Sys, t: Trail): Route
    requires Fits(s, t)
  {
    var u := Chosen(Cleared(s));
    if s.thisClock == u.gmPriority.root.clockIdentity then [s.thisClock] else AssignedRoute(u, |u.ports|, t)
  }

  function SelectTrail(s: Sys, t: Trail): (u: Trail)
    requires SelectAtRest(s) && Fits(s, t)
    ensures Fits(s, u)
  {
    if Settled(s) then t
    else t.(trace := SelectionRoute(Awake(s), if s.selState == SelInit then t.(trace := [s.thisClock]) else t))
  }

  function BodyTrail(s: Sys, p: nat, now: nat, t: Trail): (u: Trail)
    requires Ready(s, p) && Fits(s, t)
    ensures Fits(s, u)
  {
    InfoKeepsSelection(s, p, now);
    SelectTrail(InfoRun(s, p, now), InfoTrail(s, p, now, t))
  }

  function AgainTrail(s: Sys, p: nat, now: nat, t: Trail): (u: Trail)
    requires Loopable(s, p) && Fits(s, t)
    ensures Fits(s, u)
    decreases Rank(s, p)
  {
    if !s.ports[p].updtInfo then t
    else
      BodyLoopable(s, p, now);
      AgainTrail(Body(s, p, now), p, now, BodyTrail(s, p, now, t))
  }

  function PerformTrail(s: Sys, p: nat, now: nat, t: Trail): (u: Trail)
    requires Ready(s, p) && Tracks(s.ports[p]) && !Stuck(s, p) && Fits(s, t)
    ensures Fits(s, u)
  {
    BodyFirst(s, p, now);
    AgainTrail(Body(s, p, now), p, now, BodyTrail(s, p, now, t))
  }

  /** An announce is kept; a qualified one on the slave port replaces the path trace at once. */
  function ArrivalTrail(s: Sys, p: nat, x: Routed, t: Trail): (u: Trail)
    requires IsPort(s, p) && Fits(s, t)
    ensures Fits(s, u)
  {
    var taken := s.ports[p].enabled && Qualified(s, x.a) && s.selectedState[p] == SlavePort;
    t.(rcvd := t.rcvd[p := x.route], trace := if taken then x.route + [s.thisClock] else t.trace)
  }

  /** One event; `route` is that of the announce that arrives, if one does. */
  ghost function StepTrail(s: Sys, ev: Event, route: Route, t: Trail): (u: Trail)
    requires Between(s) && Fits(s, t)
    ensures Fits(s, u)
  {
    match ev
    case InfoCall(p, now) => if IsPort(s, p) then NeverStuck(s, p); InfoTrail(s, p, now, t) else t
    case SelectCall => SelectTrail(s, t)
    case Timeout(p, now) => if IsPort(s, p) then NeverStuck(s, p); PerformTrail(s, p, now, t) else t
    case Arrival(p, a, now) =>
      if IsPort(s, p) then
        ArrivalKeeps(s, p, a);
        NeverStuck(RecvAnnounce(s, p, a), p);
        PerformTrail(RecvAnnounce(s, p, a), p, now, ArrivalTrail(s, p, Routed(a, route), t))
      else t
    case Enable(_, _) => t
    case SyncSeen(_) => t
  }

  // ------------------------------------------------------------------ one port

  /** A port that holds a neighbour's vector holds the path it came with; a message waiting was sent. */
  ghost predicate PortPaths(q: Port, ann: Route, rcvd: Route, sent: set<Routed>, here: ClockIdentity) {
    && (q.infoIs == Received ==> Foreign(sent, q.ann.path, ann, here))
    && (q.rcvdMsg && q.rcvdAnnounce.Some? ==>
          Routed(q.rcvdAnnounce.value, rcvd) in sent && Foreign(sent, q.rcvdAnnounce.value.path, rcvd, here))
  }

  lemma {:induction false} LoopPaths(v: View, e: Env, now: nat, ann: Route, rcvd: Route, sent: set<Routed>)
    requires Live(v.port) && PortPaths(v.port, ann, rcvd, sent, e.thisClock)
    ensures PortPaths(Loop(v, e, now).port, LoopRoute(v, e, now, ann, rcvd), rcvd, sent, e.thisClock)
    decreases Measure(v)
  {
    hide PathOf;
    hide Foreign;
    StepDecreases(v, e, now);
    var w, r := Iterate(v, e, now), if Records(v) then rcvd else ann;
    assert PortPaths(w.port, r, rcvd, sent, e.thisClock);
    if !Done(w) { LoopPaths(w, e, now, r, rcvd, sent); }
  }

  // ------------------------------------------------------------------ one system

  ghost predicate SysPaths(s: Sys, t: Trail, sent: set<Routed>) {
    && Fits(s, t)
    && s.pathTrace == PathOf(t.trace) && GoodRoute(sent, t.trace, s.thisClock)
    && (forall p: nat :: IsPort(s, p) ==> PortPaths(s.ports[p], t.ann[p], t.rcvd[p], sent, s.thisClock))
  }

  lemma InfoPaths(s: Sys, p: nat, now: nat, t: Trail, sent: set<Routed>)
    requires Ready(s, p) && SysPaths(s, t, sent)
    ensures SysPaths(InfoRun(s, p, now), InfoTrail(s, p, now, t), sent)
  {
    hide PathOf;
    LoopPaths(Enter(ViewOf(s, p)), EnvOf(s, p), now, t.ann[p], t.rcvd[p], sent);
    var r := InfoRun(s, p, now);
    assert forall i: nat :: IsPort(r, i) && i != p ==> r.ports[i] == s.ports[i];
  }

  lemma OwnRoute(sent: set<Routed>, here: ClockIdentity)
    ensures PathOf([here]) == [here] && GoodRoute(sent, [here], here)
  {
    assert [here][..0] == [];
  }

  lemma {:induction false} AssignedTrace(s: Sys, n: nat, t: Trail, sent: set<Routed>)
    requires 1 <= n <= |s.ports| && SysPaths(s, t, sent)
    ensures AssignPorts(s, n).pathTrace == PathOf(AssignedRoute(s, n, t))
    ensures GoodRoute(sent, AssignedRoute(s, n, t), s.thisClock)
  {
    hide GoodRoute;
    hide PathOf;
    hide PortStateUpdate;
    hide ExtendedPath;
    hide Superior;
    if n > 1 {
      AssignedTrace(s, n - 1, t, sent);
      AssignPortsAt(s, n - 1, n - 1);
      AssignPortsFrame(s, n - 1);
      var u := AssignPorts(s, n - 1);
      PortStateUpdateAt(u, n - 1, n - 1);
      if BecomesSlave(u, n - 1) {
        assert PortPaths(s.ports[n - 1], t.ann[n - 1], t.rcvd[n - 1], sent, s.thisClock);
        ExtendForeign(sent, s.ports[n - 1].ann.path, t.ann[n - 1], s.thisClock);
      }
    }
  }

  /** Paths go with their ports when only what does not bear on paths changes. */
  lemma SamePaths(s: Sys, r: Sys, t: Trail, sent: set<Routed>)
    requires SysPaths(s, t, sent)
    requires |r.ports| == |s.ports| && r.pathTrace == s.pathTrace && r.thisClock == s.thisClock
    requires forall i: nat :: IsPort(s, i) ==>
               && r.ports[i].infoIs == s.ports[i].infoIs && r.ports[i].ann == s.ports[i].ann
               && r.ports[i].rcvdMsg == s.ports[i].rcvdMsg && r.ports[i].rcvdAnnounce == s.ports[i].rcvdAnnounce
    ensures SysPaths(r, t, sent)
  {
    hide PathOf;
    hide Foreign;
    forall i: nat | IsPort(r, i) ensures PortPaths(r.ports[i], t.ann[i], t.rcvd[i], sent, r.thisClock) {
      assert PortPaths(s.ports[i], t.ann[i], t.rcvd[i], sent, s.thisClock);
    }
  }

  /** The trace that a selection leaves, from the system it is made in. */
  lemma SelectionTrace(s: Sys)
    ensures var r, u := StateSelectionProc(s), Chosen(Cleared(s));
            && |r.ports| == |s.ports| && r.thisClock == s.thisClock
            && r.pathTrace == if s.thisClock == u.gmPriority.root.clockIdentity then [s.thisClock]
                              else AssignPorts(u, |u.ports|).pathTrace
  {
    var u := Chosen(Cleared(s));
    AssignPortsFrame(u, |u.ports|);
    SelectionAt(s, 0);
  }

  lemma SelectionPaths(s: Sys, t: Trail, sent: set<Routed>)
    requires SysPaths(s, t, sent)
    ensures SysPaths(StateSelectionProc(s), t.(trace := SelectionRoute(s, t)), sent)
    ensures StateSelectionProc(s).thisClock == s.thisClock
  {
    hide StateSelectionProc;
    hide PortPaths;
    hide GoodRoute;
    hide AssignPorts;
    hide AssignedRoute;
    hide PathOf;
    var u := Chosen(Cleared(s));
    SamePaths(s, u, t, sent);
    AssignedTrace(u, |u.ports|, t, sent);
    SelectionTrace(s);
    OwnRoute(sent, s.thisClock);
    var r := StateSelectionProc(s);
    forall i: nat | IsPort(s, i)
      ensures r.ports[i] == s.ports[i].(masterPriority := r.ports[i].masterPriority, updtInfo := r.ports[i].updtInfo)
    {
      SelectionAt(s, i);
    }
    SamePaths(s.(pathTrace := r.pathTrace), r, t.(trace := SelectionRoute(s, t)), sent);
  }

  lemma SelectPaths(s: Sys, t: Trail, sent: set<Routed>)
    requires SelectAtRest(s) && SysPaths(s, t, sent)
    ensures SysPaths(SelectRun(s), SelectTrail(s, t), sent) && SelectRun(s).thisClock == s.thisClock
  {
    hide PathOf;
    hide StateSelectionProc;
    hide PortPaths;
    hide SelectionRoute;
    SelectRunAwake(s);
    if !Settled(s) {
      OwnRoute(sent, s.thisClock);
      SelectionPaths(Awake(s), if s.selState == SelInit then t.(trace := [s.thisClock]) else t, sent);
    }
  }

  lemma BodyPaths(s: Sys, p: nat, now: nat, t: Trail, sent: set<Routed>)
    requires Ready(s, p) && SysPaths(s, t, sent)
    ensures SysPaths(Body(s, p, now), BodyTrail(s, p, now, t), sent) && Body(s, p, now).thisClock == s.thisClock
  {
    hide PathOf;
    hide PortPaths;
    hide GoodRoute;
    hide Run;
    hide SelectTrail;
    InfoKeepsSelection(s, p, now);
    InfoPaths(s, p, now, t, sent);
    SelectPaths(InfoRun(s, p, now), InfoTrail(s, p, now, t), sent);
  }

  lemma {:induction false} AgainPaths(s: Sys, p: nat, now: nat, t: Trail, sent: set<Routed>)
    requires Loopable(s, p) && SysPaths(s, t, sent)
    ensures SysPaths(Again(s, p, now), AgainTrail(s, p, now, t), sent) && Again(s, p, now).thisClock == s.thisClock
    decreases Rank(s, p)
  {
    hide PathOf;
    hide PortPaths;
    hide GoodRoute;
    hide Body;
    hide BodyTrail;
    if s.ports[p].updtInfo {
      BodyPaths(s, p, now, t, sent);
      BodyLoopable(s, p, now);
      AgainPaths(Body(s, p, now), p, now, BodyTrail(s, p, now, t), sent);
    }
  }

  lemma PerformPaths(s: Sys, p: nat, now: nat, t: Trail, sent: set<Routed>)
    requires Ready(s, p) && Tracks(s.ports[p]) && !Stuck(s, p) && SysPaths(s, t, sent)
    ensures SysPaths(Perform(s, p, now), PerformTrail(s, p, now, t), sent) && Perform(s, p, now).thisClock == s.thisClock
  {
    hide PathOf;
    hide PortPaths;
    hide GoodRoute;
    hide Body;
    hide BodyTrail;
    BodyPaths(s, p, now, t, sent);
    BodyFirst(s, p, now);
    AgainPaths(Body(s, p, now), p, now, BodyTrail(s, p, now, t), sent);
  }

  lemma ArrivalPaths(s: Sys, p: nat, x: Routed, t: Trail, sent: set<Routed>)
    requires Between(s) && IsPort(s, p) && SysPaths(s, t, sent) && GoodSent(sent) && x in sent
    ensures SysPaths(RecvAnnounce(s, p, x.a), ArrivalTrail(s, p, x, t), sent)
  {
    hide GoodRoute;
    hide PathOf;
    var r, u := RecvAnnounce(s, p, x.a), ArrivalTrail(s, p, x, t);
    assert GoodAnnounce(sent, x);
    assert SentRoute(sent, x.route);
    assert CheckedPath(x.a) == x.a.path;
    if Qualified(s, x.a) { ExtendForeign(sent, x.a.path, x.route, s.thisClock); }
    forall i: nat | IsPort(r, i) ensures PortPaths(r.ports[i], u.ann[i], u.rcvd[i], sent, r.thisClock) {
      assert PortPaths(s.ports[i], t.ann[i], t.rcvd[i], sent, s.thisClock);
    }
  }

  /** An event whose announce, if any, was sent by some system and came by `route`. */
  ghost predicate FromNetwork(ev: Event, route: Route, sent: set<Routed>) {
    ev.Arrival? ==> Routed(ev.a, route) in sent
  }

  lemma StepPaths(s: Sys, ev: Event, route: Route, t: Trail, sent: set<Routed>)
    requires Between(s) && SysPaths(s, t, sent) && GoodSent(sent) && FromNetwork(ev, route, sent)
    ensures SysPaths(Step(s, ev), StepTrail(s, ev, route, t), sent) && Step(s, ev).thisClock == s.thisClock
  {
    hide PathOf;
    hide Perform;
    hide PerformTrail;
    hide SelectRun;
    hide SelectTrail;
    hide Run;
    hide LoopRoute;
    hide PortPaths;
    hide GoodRoute;
    match ev
    case InfoCall(p, now) =>
      if IsPort(s, p) { NeverStuck(s, p); InfoPaths(s, p, now, t, sent); }
    case SelectCall => SelectPaths(s, t, sent);
    case Timeout(p, now) => if IsPort(s, p) { NeverStuck(s, p); PerformPaths(s, p, now, t, sent); }
    case Arrival(p, a, now) =>
      if IsPort(s, p) {
        var x := Routed(a, route);
        ArrivalKeeps(s, p, a);
        NeverStuck(RecvAnnounce(s, p, a), p);
        ArrivalPaths(s, p, x, t, sent);
        PerformPaths(RecvAnnounce(s, p, a), p, now, ArrivalTrail(s, p, x, t), sent);
      }
    case Enable(p, on) =>
      if IsPort(s, p) { SamePaths(s, Enabled(s, p, on), t, sent); }
    case SyncSeen(time) => SamePaths(s, WithSyncTime(s, time), t, sent);
  }

  // ------------------------------------------------------------------ the network

  datatype Node = Node(sys: Sys, trail: Trail)

  /** Systems by clock identity, and every announce sent so far: it may still arrive anywhere. */
  datatype Network = Network(nodes: map<ClockIdentity, Node>, sent: set<Routed>)

  /** Something happens at a system, where the announce that arrives, if any, came by `route`; or a
      system sends an announce. */
  datatype NetEvent =
    | Local(node: ClockIdentity, ev: Event, route: Route)
    | Transmit(node: ClockIdentity, p: nat, flags: TimeProps, logInterval: int)

  ghost predicate NetInv(n: Network) {
    && GoodSent(n.sent)
    && (forall x :: x in n.sent ==> x.a.source.clockIdentity in n.nodes)
    && (forall c :: c in n.nodes ==> NodeInv(n, c))
  }

  ghost predicate NodeInv(n: Network, c: ClockIdentity)
    requires c in n.nodes
  {
    var s := n.nodes[c].sys;
    Between(s) && s.thisClock == c && SysPaths(s, n.nodes[c].trail, n.sent)
  }

  /** An announce that no system sent never arrives; everything else may happen. */
  ghost predicate Possible(n: Network, ev: NetEvent) {
    && ev.node in n.nodes
    && match ev
       case Local(_, e, route) => FromNetwork(e, route, n.sent)
       case Transmit(c, p, _, _) => IsPort(n.nodes[c].sys, p) && MayTransmit(n.nodes[c].sys, p)
  }

  ghost function NetStep(n: Network, ev: NetEvent): Network
    requires NetInv(n) && Possible(n, ev)
  {
    assert NodeInv(n, ev.node);
    var s, t := n.nodes[ev.node].sys, n.nodes[ev.node].trail;
    match ev
    case Local(c, e, route) => n.(nodes := n.nodes[c := Node(Step(s, e), StepTrail(s, e, route, t))])
    case Transmit(c, p, flags, logInterval) =>
      n.(sent := n.sent + {Routed(TxAnnounce(s, p, flags, logInterval), t.trace)})
  }

  lemma MoreRoute(sent: set<Routed>, more: set<Routed>, route: Route, last: ClockIdentity)
    requires GoodRoute(sent, route, last) && sent <= more
    ensures GoodRoute(more, route, last)
  {
    hide PathOf;
    if |route| >= 2 {
      var x :| x in sent && x.route == route[..|route| - 1];
      assert x in more;
    }
  }

  lemma MoreForeign(sent: set<Routed>, more: set<Routed>, path: seq<ClockIdentity>, route: Route, here: ClockIdentity)
    requires Foreign(sent, path, route, here) && sent <= more
    ensures Foreign(more, path, route, here)
  {
    hide PathOf;
    if route != [] {
      var x :| x in sent && x.route == route;
      assert x in more;
    }
  }

  lemma MoreSent(s: Sys, t: Trail, sent: set<Routed>, more: set<Routed>)
    requires SysPaths(s, t, sent) && sent <= more
    ensures SysPaths(s, t, more)
  {
    hide PathOf;
    hide GoodRoute;
    hide Foreign;
    MoreRoute(sent, more, t.trace, s.thisClock);
    forall p: nat | IsPort(s, p) ensures PortPaths(s.ports[p], t.ann[p], t.rcvd[p], more, s.thisClock) {
      var q := s.ports[p];
      assert PortPaths(q, t.ann[p], t.rcvd[p], sent, s.thisClock);
      if q.infoIs == Received { MoreForeign(sent, more, q.ann.path, t.ann[p], s.thisClock); }
      if q.rcvdMsg && q.rcvdAnnounce.Some? {
        MoreForeign(sent, more, q.rcvdAnnounce.value.path, t.rcvd[p], s.thisClock);
      }
    }
  }

  lemma LocalKeeps(n: Network, c: ClockIdentity, ev: Event, route: Route)
    requires NetInv(n) && Possible(n, Local(c, ev, route))
    ensures NetInv(NetStep(n, Local(c, ev, route)))
  {
    hide PathOf;
    hide PortPaths;
    hide GoodRoute;
    hide Between;
    hide Step;
    hide StepTrail;
    assert NodeInv(n, c);
    StepPaths(n.nodes[c].sys, ev, route, n.nodes[c].trail, n.sent);
    var m := NetStep(n, Local(c, ev, route));
    forall d | d in m.nodes ensures NodeInv(m, d) { assert NodeInv(n, d); }
  }

  lemma TransmitKeeps(n: Network, c: ClockIdentity, p: nat, flags: TimeProps, logInterval: int)
    requires NetInv(n) && Possible(n, Transmit(c, p, flags, logInterval))
    ensures NetInv(NetStep(n, Transmit(c, p, flags, logInterval)))
  {
    hide PortPaths;
    hide GoodRoute;
    hide PathOf;
    hide Between;
    var m := NetStep(n, Transmit(c, p, flags, logInterval));
    assert NodeInv(n, c);
    forall d | d in m.nodes ensures NodeInv(m, d) {
      assert NodeInv(n, d);
      MoreSent(n.nodes[d].sys, n.nodes[d].trail, n.sent, m.sent);
    }
    forall x | x in m.sent ensures GoodAnnounce(m.sent, x) {
      if x in n.sent {
        assert GoodAnnounce(n.sent, x);
        MoreRoute(n.sent, m.sent, x.route, x.a.source.clockIdentity);
      } else {
        MoreRoute(n.sent, m.sent, n.nodes[c].trail.trace, c);
      }
    }
  }

  lemma NetStepKeeps(n: Network, ev: NetEvent)
    requires NetInv(n) && Possible(n, ev)
    ensures NetInv(NetStep(n, ev)) && NetStep(n, ev).nodes.Keys == n.nodes.Keys
  {
    hide NetInv;
    match ev
    case Local(c, e, route) => LocalKeeps(n, c, e, route);
    case Transmit(c, p, flags, logInterval) => TransmitKeeps(n, c, p, flags, logInterval);
  }

  /** The networks that runs reach from systems just initialised, nothing sent. */
  ghost predicate Reached(n: Network, events: seq<NetEvent>, m: Network)
    requires NetInv(n)
    decreases |events|
  {
    if events == [] then m == n
    else
      Possible(n, events[0]) &&
      (NetStepKeeps(n, events[0]); Reached(NetStep(n, events[0]), events[1..], m))
  }

  ghost predicate Fresh(n: Network) {
    && n.sent == {}
    && (forall c :: c in n.nodes ==> FreshNode(n.nodes[c], c))
  }

  ghost predicate FreshNode(d: Node, c: ClockIdentity) {
    exists root: SystemIdentity, props: TimeProps, quick: bool, configs: seq<PortConfig>
      {:trigger NewSys(root, props, quick, configs)} ::
      && 1 <= |configs| < MAX_PORT_NUMBER_LIMIT && root.clockIdentity == c
      && d.sys == NewSys(root, props, quick, configs)
      && d.trail == Trail([], seq(|configs|, i => []), seq(|configs|, i => []))
  }

  lemma FreshPaths(root: SystemIdentity, props: TimeProps, quick: bool, configs: seq<PortConfig>)
    requires 1 <= |configs| < MAX_PORT_NUMBER_LIMIT
    ensures SysPaths(NewSys(root, props, quick, configs), Trail([], seq(|configs|, i => []), seq(|configs|, i => [])), {})
  {
    hide PathOf;
    ShortRoute([]);
    var s := NewSys(root, props, quick, configs);
    forall p: nat | IsPort(s, p) ensures s.ports[p].infoIs == Disabled && !s.ports[p].rcvdMsg {
      assert s.ports[p] == InitialPort(configs[p]);
    }
  }

  lemma FreshInv(n: Network)
    requires Fresh(n)
    ensures NetInv(n)
  {
    hide Between;
    hide SysPaths;
    forall c | c in n.nodes ensures NodeInv(n, c) {
      assert FreshNode(n.nodes[c], c);
      var root: SystemIdentity, props: TimeProps, quick: bool, configs: seq<PortConfig>
        :| 1 <= |configs| < MAX_PORT_NUMBER_LIMIT && root.clockIdentity == c
           && n.nodes[c].sys == NewSys(root, props, quick, configs)
           && n.nodes[c].trail == Trail([], seq(|configs|, i => []), seq(|configs|, i => []));
      InitialBetween(root, props, quick, configs);
      FreshPaths(root, props, quick, configs);
    }
  }

  lemma {:induction false} ReachedInv(n: Network, events: seq<NetEvent>, m: Network)
    requires NetInv(n) && Reached(n, events, m)
    ensures NetInv(m) && m.nodes.Keys == n.nodes.Keys
    decreases |events|
  {
    hide NetInv;
    hide Possible;
    hide NetStep;
    if events != [] {
      NetStepKeeps(n, events[0]);
      ReachedInv(NetStep(n, events[0]), events[1..], m);
    }
  }

  // ------------------------------------------------------------------ the theorems

  /** What a path owes to its route. */
  ghost predicate LoopFree(path: seq<ClockIdentity>, route: Route, last: ClockIdentity) {
    && path == PathOf(route)
    && NoDuplicates(path)
    && (route != [] ==> route[|route| - 1] == last)
  }

  /** In every run every system's path trace is the part of its route since that was last emptied,
      which repeats nothing and has at most MAX_PATH_TRACE_N entries, and unless empty it ends in
      the system itself; so is every path sent, whose last entry is its sender. */
  lemma PathsAreLoopFree(n: Network, events: seq<NetEvent>, m: Network)
    requires Fresh(n)
    ensures NetInv(n)
    ensures Reached(n, events, m) ==>
      && (forall c | c in m.nodes :: LoopFree(m.nodes[c].sys.pathTrace, m.nodes[c].trail.trace, c))
      && (forall x | x in m.sent :: LoopFree(x.a.path, x.route, x.a.source.clockIdentity))
  {
    FreshInv(n);
    if Reached(n, events, m) {
      ReachedInv(n, events, m);
      forall c | c in m.nodes ensures LoopFree(m.nodes[c].sys.pathTrace, m.nodes[c].trail.trace, c) {
        assert NodeInv(m, c);
        PathDistinct(m.sent, m.nodes[c].trail.trace, c);
      }
      forall x | x in m.sent ensures LoopFree(x.a.path, x.route, x.a.source.clockIdentity) {
        assert GoodAnnounce(m.sent, x);
        PathDistinct(m.sent, x.route, x.a.source.clockIdentity);
      }
    }
  }

  /** `c` announced the beginning of the route by which `x` came. */
  ghost predicate PassedThrough(sent: set<Routed>, x: Routed, c: ClockIdentity) {
    exists y :: y in sent && y.a.source.clockIdentity == c && y.route != [] && y.route <= x.route
  }

  /** A route lists exactly the systems its announce passed through. */
  lemma RouteListsSystems(sent: set<Routed>, x: Routed, c: ClockIdentity)
    requires GoodSent(sent) && x in sent
    ensures c in x.route <==> PassedThrough(sent, x, c)
  {
    hide Emptied;
    hide PathOf;
    if c in x.route {
      var k: nat :| k < |x.route| && x.route[k] == c;
      var y := RouteIsAnnounced(sent, x, k);
      assert y.route <= x.route;
    }
    if PassedThrough(sent, x, c) {
      var y :| y in sent && y.a.source.clockIdentity == c && y.route != [] && y.route <= x.route;
      assert GoodAnnounce(sent, y);
      assert x.route[|y.route| - 1] == c;
    }
  }

  /** A path is part of its route: each entry is a system that announced the path up to itself. */
  lemma PathIsRoute(sent: set<Routed>, x: Routed, k: nat) returns (y: Routed)
    requires GoodSent(sent) && x in sent && k < |x.a.path|
    ensures y in sent && y.a.path == x.a.path[..k + 1] && y.a.source.clockIdentity == x.a.path[k]
    ensures y.route == x.route[..Emptied(x.route) + k + 1]
  {
    hide Emptied;
    hide PathOf;
    hide GoodRoute;
    var e := Emptied(x.route);
    assert GoodAnnounce(sent, x);
    PathParts(x.route);
    y := RouteIsAnnounced(sent, x, e + k);
    assert GoodAnnounce(sent, y);
    EmptiedPrefix(x.route, e + k + 1);
  }

  /** A path lists exactly the systems its announce passed through since it was last emptied. */
  lemma PathListsRoute(sent: set<Routed>, x: Routed, c: ClockIdentity)
    requires GoodSent(sent) && x in sent
    ensures c in x.a.path <==>
              exists y :: y in sent && y.a.source.clockIdentity == c && y.route <= x.route && |y.route| > Emptied(x.route)
  {
    hide Emptied;
    hide PathOf;
    var e := Emptied(x.route);
    PathParts(x.route);
    assert GoodAnnounce(sent, x);
    if c in x.a.path {
      var k: nat :| k < |x.a.path| && x.a.path[k] == c;
      var y := PathIsRoute(sent, x, k);
      assert y.route <= x.route;
    }
    if y :| y in sent && y.a.source.clockIdentity == c && y.route <= x.route && |y.route| > e {
      assert GoodAnnounce(sent, y);
      assert x.a.path[|y.route| - 1 - e] == c;
    }
  }

  /** In every run a system refuses an announce on account of its path exactly when the announce has
      passed through it since its path was last emptied. */
  lemma RefusedIff(n: Network, events: seq<NetEvent>, m: Network, x: Routed, c: ClockIdentity)
    requires Fresh(n)
    requires c in m.nodes && x in m.sent
    ensures NetInv(n)
    ensures Reached(n, events, m) ==>
      (Qualified(m.nodes[c].sys, x.a) <==>
         x.a.source.clockIdentity != c && x.a.stepsRemoved < 255 && c !in x.route[Emptied(x.route)..])
  {
    hide Emptied;
    hide SysPaths;
    hide Between;
    FreshInv(n);
    if Reached(n, events, m) {
      ReachedInv(n, events, m);
      assert NodeInv(m, c) && GoodAnnounce(m.sent, x);
      assert CheckedPath(x.a) == x.a.path;
    }
  }

  lemma InTail(route: Route, e: nat, c: ClockIdentity)
    requires e <= |route|
    ensures c !in route[e..] <==> forall k :: 0 <= k < |route| && route[k] == c ==> k < e
  {
    if c in route[e..] {
      var k :| 0 <= k < |route[e..]| && route[e..][k] == c;
      assert route[e + k] == c;
    }
    if !(forall k :: 0 <= k < |route| && route[k] == c ==> k < e) {
      var k :| 0 <= k < |route| && route[k] == c && k >= e;
      assert route[e..][k - e] == c;
    }
  }

  /** So an announce that passed through a system is accepted there exactly when it did so only
      before its path was emptied. */
  lemma ReturningAcceptedIff(n: Network, events: seq<NetEvent>, m: Network, x: Routed, c: ClockIdentity)
    requires Fresh(n)
    requires c in m.nodes && x in m.sent && PassedThrough(m.sent, x, c)
    requires x.a.source.clockIdentity != c && x.a.stepsRemoved < 255
    ensures NetInv(n)
    ensures Reached(n, events, m) ==>
      && c in x.route
      && (Qualified(m.nodes[c].sys, x.a) <==> forall k :: 0 <= k < |x.route| && x.route[k] == c ==> k < Emptied(x.route))
  {
    hide Emptied;
    hide NodeInv;
    RefusedIff(n, events, m, x, c);
    if Reached(n, events, m) {
      ReachedInv(n, events, m);
      RouteListsSystems(m.sent, x, c);
      InTail(x.route, Emptied(x.route), c);
    }
  }

  // ------------------------------------------------------------------ networks of up to 179 systems

  lemma {:induction false} DistinctFits(path: seq<ClockIdentity>, systems: set<ClockIdentity>)
    requires NoDuplicates(path) && forall c :: c in path ==> c in systems
    ensures |path| <= |systems|
    decreases |path|
  {
    if path != [] {
      var last := path[|path| - 1];
      DistinctFits(path[..|path| - 1], systems - {last});
    }
  }

  /** In a network of at most MAX_PATH_TRACE_N systems no path is ever emptied. */
  lemma {:induction false} RouteFits(n: Network, route: Route, last: ClockIdentity)
    requires NetInv(n) && |n.nodes| <= MAX_PATH_TRACE_N
    requires GoodRoute(n.sent, route, last) && last in n.nodes
    ensures NoDuplicates(route) && (forall c :: c in route ==> c in n.nodes)
    ensures |route| <= MAX_PATH_TRACE_N && PathOf(route) == route
    decreases |route|
  {
    hide Emptied;
    hide PathOf;
    hide NodeInv;
    if route != [] {
      var r := route[..|route| - 1];
      if r != [] {
        var x :| x in n.sent && x.route == r;
        assert GoodAnnounce(n.sent, x);
        RouteFits(n, r, x.a.source.clockIdentity);
      }
      ShortRoute(r);
      OneMoreFits(r, last, n.nodes.Keys);
      assert route == r + [last];
    }
    ShortRoute(route);
  }

  lemma OneMoreFits(route: Route, last: ClockIdentity, systems: set<ClockIdentity>)
    requires NoDuplicates(route) && last !in route && last in systems && forall c :: c in route ==> c in systems
    ensures NoDuplicates(route + [last]) && (forall c :: c in route + [last] ==> c in systems)
    ensures |route| + 1 <= |systems|
  {
    DistinctFits(route + [last], systems);
  }

  /** There every path is the whole route, and no system accepts an announce that passed through it. */
  lemma NoAnnounceReturns(n: Network, events: seq<NetEvent>, m: Network, x: Routed, c: ClockIdentity)
    requires Fresh(n) && |n.nodes| <= MAX_PATH_TRACE_N
    requires c in m.nodes && x in m.sent
    ensures NetInv(n)
    ensures Reached(n, events, m) ==>
      && x.a.path == x.route && m.nodes[c].sys.pathTrace == m.nodes[c].trail.trace
      && (Qualified(m.nodes[c].sys, x.a) <==>
            x.a.source.clockIdentity != c && x.a.stepsRemoved < 255 && !PassedThrough(m.sent, x, c))
  {
    RefusedIff(n, events, m, x, c);
    if Reached(n, events, m) {
      ReachedInv(n, events, m);
      assert NodeInv(m, c) && GoodAnnounce(m.sent, x);
      assert |m.nodes| == |m.nodes.Keys| == |n.nodes.Keys| == |n.nodes|;
      RouteFits(m, x.route, x.a.source.clockIdentity);
      RouteFits(m, m.nodes[c].trail.trace, c);
      RouteListsSystems(m.sent, x, c);
    }
  }

  // ------------------------------------------------------------------ and of more

  /** A system whose slave port receives a path of MAX_PATH_TRACE_N entries announces an empty path,
      and every system of the path it received accepts that. */
  lemma FullPathReturns(s: Sys, p: nat, a: Announce, q: nat, flags: TimeProps, logInterval: int, t: Sys)
    requires IsPort(s, p) && s.ports[p].enabled && s.selectedState[p] == SlavePort && IsPort(s, q)
    requires CarriesPathTrace(a) && |a.path| == MAX_PATH_TRACE_N && Qualified(s, a)
    requires t.thisClock in a.path && s.masterStepsRemoved < 255
    ensures var b := TxAnnounce(RecvAnnounce(s, p, a), q, flags, logInterval);
            b.path == [] && Qualified(t, b)
  {
    assert CheckedPath(a) == a.path;
  }
}

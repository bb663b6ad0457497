/** What a network of systems agrees on once nothing moves any more. */
module Agreement {
  import opened Priority
  import opened BmcsState
  import opened PortSelection
  import opened PortInformation
  import opened BmcsInvariants
  import opened PathTrace

  datatype End = End(node: ClockIdentity, port: nat)

  /** Systems by clock identity, and the links between their ports. */
  datatype Topology = Topology(nodes: map<ClockIdentity, Sys>, peer: map<End, End>)

  ghost predicate IsEnd(t: Topology, e: End) {
    e.node in t.nodes && IsPort(t.nodes[e.node], e.port)
  }

  /** Links join two ports of systems of the network, and every port not linked is disabled. */
  ghost predicate Wired(t: Topology) {
    && (forall e :: e in t.peer ==> IsEnd(t, e) && t.peer[e] in t.peer && t.peer[t.peer[e]] == e)
    && (forall e: End {:trigger IsEnd(t, e)} :: IsEnd(t, e) && e !in t.peer ==> PortAt(t, e).infoIs == Disabled)
  }

  ghost function PortAt(t: Topology, e: End): Port
    requires IsEnd(t, e)
  {
    t.nodes[e.node].ports[e.port]
  }

  /** The vector that end `e` would store from an announce its neighbour sends now. */
  ghost function Offered(t: Topology, e: End): PriorityVector
    requires Wired(t) && e in t.peer && IsEnd(t, t.peer[e])
    requires e.port < MAX_PORT_NUMBER_LIMIT
  {
    MessageVector(TxAnnounce(t.nodes[t.peer[e].node], t.peer[e].port, NO_PROPS, 0), e.port)
  }

  /** A system in a state that runs reach, identified by its clock, with all port states selected,
      no update due, and an identity that counts as a stored vector. */
  ghost predicate Still(t: Topology, c: ClockIdentity)
    requires c in t.nodes
  {
    var s := t.nodes[c];
    && SysInv(s) && HasSelected(s) && !AnyReselect(s)
    && s.thisClock == c
    && HasPortPriority(s.systemPriority)
    && (forall p: nat :: IsPort(s, p) ==> !s.ports[p].updtInfo)
  }

  /** A linked port stores what its neighbour keeps sending, or announces itself; and nothing
      its neighbour may send is better than what it holds. */
  ghost predicate StillEnd(t: Topology, e: End)
    requires Wired(t) && e in t.peer && Still(t, e.node) && Still(t, t.peer[e].node)
  {
    var q := PortAt(t, e);
    var n := t.nodes[t.peer[e].node];
    && (q.infoIs == Mine || q.infoIs == Received)
    && (q.infoIs == Received ==> MayTransmit(n, t.peer[e].port) && n.ports[t.peer[e].port].infoIs == Mine &&
                                 q.portPriority == Offered(t, e))
    && (MayTransmit(n, t.peer[e].port) ==> !Superior(Offered(t, e), q.portPriority))
  }

  ghost predicate Quiescent(t: Topology) {
    && Wired(t)
    && (forall c {:trigger Still(t, c)} :: c in t.nodes ==> Still(t, c))
    && (forall e {:trigger StillEnd(t, e)} :: e in t.peer ==> e.node in t.nodes && t.peer[e].node in t.nodes && StillEnd(t, e))
  }

  ghost function Gm(t: Topology, c: ClockIdentity): PriorityVector
    requires c in t.nodes
  {
    t.nodes[c].gmPriority
  }

  ghost function Own(t: Topology, c: ClockIdentity): PriorityVector
    requires c in t.nodes
  {
    t.nodes[c].systemPriority
  }

  ghost predicate IsSlave(t: Topology, e: End)
    requires e.node in t.nodes
  {
    var s := t.nodes[e.node];
    e.port < |s.selectedState| && s.selectedState[e.port] == SlavePort
  }

  ghost predicate Adjacent(t: Topology, a: ClockIdentity, b: ClockIdentity) {
    exists e :: e in t.peer && e.node == a && t.peer[e].node == b
  }

  ghost predicate Walk(t: Topology, w: seq<ClockIdentity>) {
    && w != []
    && (forall i | 0 <= i < |w| :: w[i] in t.nodes)
    && (forall i | 0 <= i < |w| - 1 :: Adjacent(t, w[i], w[i + 1]))
  }

  // ------------------------------------------------------------------ one link

  /** A port of a still system, from what runs keep. */
  lemma StillPort(t: Topology, e: End)
    requires IsEnd(t, e) && Still(t, e.node)
    ensures var s, q := t.nodes[e.node], PortAt(t, e);
            && q.masterPriority == MasterVector(s, s.gmPriority, e.port)
            && Coherent(q, s.selectedState[e.port], s.gmPriority) && s.selected[e.port] && !q.updtInfo
            && (q.infoIs == Mine ==> q.portPriority == q.masterPriority && MayTransmit(s, e.port))
            && (q.infoIs == Received ==> q.portPriority.stepsRemoved < 255)
            && s.masterStepsRemoved == s.gmPriority.stepsRemoved <= 255
  {
    var s := t.nodes[e.node];
    assert PortInv(s, e.port);
    assert !s.reselect[e.port];
  }

  /** Both ends of a link. */
  lemma Linked(t: Topology, e: End)
    requires Quiescent(t) && e in t.peer
    ensures IsEnd(t, e) && IsEnd(t, t.peer[e]) && t.peer[t.peer[e]] == e
    ensures Still(t, e.node) && Still(t, t.peer[e].node) && StillEnd(t, e)
  {
    assert Still(t, e.node) && Still(t, t.peer[e].node);
    assert StillEnd(t, e);
  }

  /** One end of a link seen through vectors alone: `gm` is chosen here, `offered` is what the
      neighbour would send, `sends` tells whether it may. */
  ghost predicate Facing(q: Port, gm: PriorityVector, offered: PriorityVector, sends: bool) {
    && q.masterPriority.root == gm.root && q.masterPriority.stepsRemoved == gm.stepsRemoved <= 255
    && (q.infoIs == Mine || q.infoIs == Received)
    && (q.infoIs == Mine ==> q.portPriority == q.masterPriority)
    && (q.infoIs == Received ==>
          && sends && q.portPriority == offered && offered.stepsRemoved < 255
          && !Superior(GmPath(q), gm)
          && (gm == GmPath(q) || !Superior(q.masterPriority, q.portPriority)))
    && (sends ==> !Superior(offered, q.portPriority))
  }

  lemma LinkFaces(t: Topology, e: End) returns (offered: PriorityVector, sends: bool)
    requires Quiescent(t) && e in t.peer
    ensures IsEnd(t, e) && IsEnd(t, t.peer[e]) && t.peer[t.peer[e]] == e
    ensures Facing(PortAt(t, e), Gm(t, e.node), offered, sends)
    ensures offered.root == Gm(t, t.peer[e].node).root && offered.stepsRemoved == Gm(t, t.peer[e].node).stepsRemoved
    ensures PortAt(t, t.peer[e]).infoIs == Mine ==> sends
  {
    Linked(t, e);
    StillPort(t, e);
    StillPort(t, t.peer[e]);
    offered := Offered(t, e);
    sends := MayTransmit(t.nodes[t.peer[e].node], t.peer[e].port);
  }

  /** A system that is not its own grandmaster follows a neighbour one hop closer. */
  ghost predicate Follows(t: Topology, c: ClockIdentity, m: ClockIdentity)
    requires c in t.nodes
  {
    && m in t.nodes && Adjacent(t, m, c)
    && Gm(t, c).root == Gm(t, m).root && Gm(t, c).stepsRemoved == Gm(t, m).stepsRemoved + 1
  }

  lemma SlaveIsLinked(t: Topology, e: End)
    requires Wired(t) && IsEnd(t, e) && Still(t, e.node) && IsSlave(t, e)
    ensures e in t.peer && PortAt(t, e).infoIs == Received && Gm(t, e.node) == GmPath(PortAt(t, e))
  {
    StillPort(t, e);
  }

  lemma FacingSlave(q: Port, gm: PriorityVector, offered: PriorityVector, sends: bool)
    requires Facing(q, gm, offered, sends) && q.infoIs == Received && gm == GmPath(q)
    ensures gm.root == offered.root && gm.stepsRemoved == offered.stepsRemoved + 1
  {}

  lemma SlaveFollows(t: Topology, e: End)
    requires Quiescent(t) && IsEnd(t, e) && IsSlave(t, e)
    ensures e in t.peer && Follows(t, e.node, t.peer[e].node)
  {
    var f := FollowedEnd(t, e);
    assert Adjacent(t, f.node, e.node);
  }

  lemma FollowedEnd(t: Topology, e: End) returns (f: End)
    requires Quiescent(t) && IsEnd(t, e) && IsSlave(t, e)
    ensures e in t.peer && f == t.peer[e] && f in t.peer && t.peer[f] == e && f.node in t.nodes
    ensures Gm(t, e.node).root == Gm(t, f.node).root
    ensures Gm(t, e.node).stepsRemoved == Gm(t, f.node).stepsRemoved + 1
  {
    assert Still(t, e.node);
    SlaveIsLinked(t, e);
    f := t.peer[e];
    var offered, sends := LinkFaces(t, e);
    FacingSlave(PortAt(t, e), Gm(t, e.node), offered, sends);
  }

  lemma Parent(t: Topology, c: ClockIdentity) returns (m: ClockIdentity)
    requires Quiescent(t) && c in t.nodes && Gm(t, c) != Own(t, c)
    ensures Follows(t, c, m)
  {
    var s := t.nodes[c];
    assert Still(t, c);
    var p: nat :| 1 <= p < |s.ports| && s.selectedState[p] == SlavePort;
    SlaveFollows(t, End(c, p));
    m := t.peer[End(c, p)].node;
  }

  ghost predicate Rooted(t: Topology) {
    forall c :: c in t.nodes && Gm(t, c) != Own(t, c) ==> exists m :: Follows(t, c, m)
  }

  lemma QuiescentRooted(t: Topology)
    requires Quiescent(t)
    ensures Rooted(t)
  {
    forall c | c in t.nodes && Gm(t, c) != Own(t, c) ensures exists m :: Follows(t, c, m) {
      var m := Parent(t, c);
    }
  }

  /** Following leads, hop by hop, to a system that is its own grandmaster. */
  lemma {:induction false} Grandmaster(t: Topology, c: ClockIdentity) returns (g: ClockIdentity, walk: seq<ClockIdentity>)
    requires Rooted(t) && c in t.nodes
    ensures g in t.nodes && Gm(t, g) == Own(t, g) && Gm(t, c).root == Own(t, g).root
    ensures Walk(t, walk) && walk[0] == g && walk[|walk| - 1] == c
    ensures |walk| == Gm(t, c).stepsRemoved - Own(t, g).stepsRemoved + 1
    decreases Gm(t, c).stepsRemoved
  {
    hide Wf;
    if Gm(t, c) == Own(t, c) {
      g, walk := c, [c];
    } else {
      var m :| Follows(t, c, m);
      g, walk := Grandmaster(t, m);
      walk := walk + [c];
    }
  }

  lemma RootHasPriority(t: Topology, c: ClockIdentity)
    requires Quiescent(t) && c in t.nodes
    ensures forall v: PriorityVector :: v.root == Gm(t, c).root ==> HasPortPriority(v)
  {
    QuiescentRooted(t);
    var g, w := Grandmaster(t, c);
    assert Still(t, g);
  }

  // ------------------------------------------------------------------ two ends

  /** No neighbour has a better grandmaster. */
  lemma FacingNotBetter(q: Port, gm: PriorityVector, p: Port, gm': PriorityVector,
                        offered: PriorityVector, offered': PriorityVector, sends: bool, sends': bool)
    requires Facing(q, gm, offered, sends) && Facing(p, gm', offered', sends')
    requires offered.root == gm'.root && offered'.root == gm.root
    requires p.infoIs == Mine ==> sends
    requires HasPortPriority(offered) && HasPortPriority(offered')
    ensures !BetterIdentity(gm'.root, gm.root)
  {
    IdentityTotal(gm.root, gm'.root);
  }

  /** With the same grandmaster, no neighbour is more than one hop closer to it. */
  lemma FacingNotCloser(q: Port, gm: PriorityVector, p: Port, gm': PriorityVector,
                        offered: PriorityVector, offered': PriorityVector, sends: bool, sends': bool)
    requires Facing(q, gm, offered, sends) && Facing(p, gm', offered', sends')
    requires offered.root == gm'.root && offered'.root == gm.root && gm.root == gm'.root
    requires offered.stepsRemoved == gm'.stepsRemoved && offered'.stepsRemoved == gm.stepsRemoved
    requires p.infoIs == Mine ==> sends
    requires HasPortPriority(offered) && HasPortPriority(offered')
    ensures gm.stepsRemoved <= gm'.stepsRemoved + 1
  {
    hide Superior;
    if gm.stepsRemoved > gm'.stepsRemoved + 1 {
      if q.infoIs == Received {
        FewerStepsBetter(GmPath(q), gm);
      } else if p.infoIs == Received {
        FewerStepsBetter(p.masterPriority, p.portPriority);
      } else {
        FewerStepsBetter(offered, q.portPriority);
      }
    }
  }

  // ------------------------------------------------------------------ the whole network

  ghost predicate Connected(t: Topology) {
    && t.nodes != map[]
    && (forall a, b {:trigger Reachable(t, a, b)} :: a in t.nodes && b in t.nodes ==> Reachable(t, a, b))
  }

  ghost predicate Reachable(t: Topology, a: ClockIdentity, b: ClockIdentity) {
    exists w :: Walk(t, w) && w[0] == a && w[|w| - 1] == b
  }

  /** Neighbours share the grandmaster, and their distances from it differ by one hop at most. */
  ghost predicate Graded(t: Topology) {
    forall a, b :: a in t.nodes && b in t.nodes && Adjacent(t, a, b) ==>
      Gm(t, a).root == Gm(t, b).root && Gm(t, b).stepsRemoved <= Gm(t, a).stepsRemoved + 1
  }

  lemma LinkAgrees(t: Topology, e: End)
    requires Quiescent(t) && e in t.peer
    ensures e.node in t.nodes && t.peer[e].node in t.nodes
    ensures Gm(t, t.peer[e].node).root == Gm(t, e.node).root
    ensures Gm(t, e.node).stepsRemoved <= Gm(t, t.peer[e].node).stepsRemoved + 1
  {
    var f := t.peer[e];
    var o, x := LinkFaces(t, e);
    var o', x' := LinkFaces(t, f);
    RootHasPriority(t, e.node);
    RootHasPriority(t, f.node);
    var q, gm, p, gm' := PortAt(t, e), Gm(t, e.node), PortAt(t, f), Gm(t, f.node);
    FacingNotBetter(q, gm, p, gm', o, o', x, x');
    FacingNotBetter(p, gm', q, gm, o', o, x', x);
    IdentityTotal(gm.root, gm'.root);
    FacingNotCloser(q, gm, p, gm', o, o', x, x');
  }

  lemma QuiescentGraded(t: Topology)
    requires Quiescent(t)
    ensures Graded(t)
  {
    forall a, b | a in t.nodes && b in t.nodes && Adjacent(t, a, b)
      ensures Gm(t, a).root == Gm(t, b).root && Gm(t, b).stepsRemoved <= Gm(t, a).stepsRemoved + 1
    {
      var e :| e in t.peer && e.node == a && t.peer[e].node == b;
      Linked(t, e);
      LinkAgrees(t, t.peer[e]);
    }
  }

  /** Along a walk the grandmaster stays the same and the distance grows by one hop at most. */
  lemma {:induction false} WalkAgrees(t: Topology, w: seq<ClockIdentity>)
    requires Graded(t) && Walk(t, w)
    ensures Gm(t, w[|w| - 1]).root == Gm(t, w[0]).root
    ensures Gm(t, w[|w| - 1]).stepsRemoved <= Gm(t, w[0]).stepsRemoved + |w| - 1
    decreases |w|
  {
    if |w| > 1 {
      var v := w[..|w| - 1];
      WalkAgrees(t, v);
      assert Adjacent(t, w[|w| - 2], w[|w| - 1]);
    }
  }

  /** A quiescent connected network has one grandmaster: the system with the best identity. Every
      system follows it, no other system is its own grandmaster. */
  lemma NetworkAgrees(t: Topology) returns (g: ClockIdentity)
    requires Quiescent(t) && Connected(t)
    ensures g in t.nodes
    ensures forall c :: c in t.nodes ==> Gm(t, c).root == Own(t, g).root
    ensures forall c :: c in t.nodes ==> !BetterIdentity(Own(t, c).root, Own(t, g).root)
    ensures forall c :: c in t.nodes ==> (Gm(t, c) == Own(t, c) <==> c == g)
    ensures forall c :: c in t.nodes ==> (IsSlave(t, End(c, 0)) <==> c == g)
  {
    var a :| a in t.nodes;
    QuiescentRooted(t);
    QuiescentGraded(t);
    var h, w0 := Grandmaster(t, a);
    g := h;
    forall c | c in t.nodes
      ensures Gm(t, c).root == Own(t, g).root && !BetterIdentity(Own(t, c).root, Own(t, g).root)
      ensures Gm(t, c) == Own(t, c) <==> c == g
      ensures IsSlave(t, End(c, 0)) <==> c == g
    {
      assert Reachable(t, g, c);
      var w :| Walk(t, w) && w[0] == g && w[|w| - 1] == c;
      WalkAgrees(t, w);
      RootIsBest(t, c, g);
    }
  }

  lemma RootIsBest(t: Topology, c: ClockIdentity, g: ClockIdentity)
    requires c in t.nodes && g in t.nodes && Still(t, c) && Still(t, g)
    requires Gm(t, c).root == Own(t, g).root && Gm(t, g) == Own(t, g)
    ensures !BetterIdentity(Own(t, c).root, Own(t, g).root)
    ensures Gm(t, c) == Own(t, c) <==> c == g
    ensures IsSlave(t, End(c, 0)) <==> c == g
  {}

  /** In a quiescent network stepsRemoved is the distance from the grandmaster: some walk from it
      has that many hops, and none has fewer. */
  lemma StepsAreDistance(t: Topology, c: ClockIdentity)
    requires Quiescent(t) && Connected(t) && c in t.nodes
    ensures exists g, w ::
              && g in t.nodes && Gm(t, g) == Own(t, g)
              && Walk(t, w) && w[0] == g && w[|w| - 1] == c && |w| == Gm(t, c).stepsRemoved + 1
              && (forall v :: Walk(t, v) && v[0] == g && v[|v| - 1] == c ==> |w| <= |v|)
  {
    QuiescentRooted(t);
    QuiescentGraded(t);
    var g, w := Grandmaster(t, c);
    assert Own(t, g).stepsRemoved == 0 by { assert Still(t, g); }
    hide Wf;
    hide Quiescent;
    forall v | Walk(t, v) && v[0] == g && v[|v| - 1] == c ensures |w| <= |v| { WalkAgrees(t, v); }
  }
}

/** The two machines run in turn until the port has nothing left to update (gptpman.c, sm_bmcs_perform). */
module BmcsPerform {
  import opened Priority
  import opened BmcsState
  import opened PortSelection
  import opened PortInformation

  /** Both machines at rest: what holds between two calls. */
  predicate Ready(s: Sys, p: nat) {
    IsPort(s, p) && Live(s.ports[p]) && AtRest(s.ports[p]) && SelectAtRest(s)
  }

  lemma InfoKeepsSelection(s: Sys, p: nat, now: nat)
    requires Ready(s, p)
    ensures Ready(InfoRun(s, p, now), p)
  {}

  lemma SelectKeepsPort(s: Sys, p: nat)
    requires SelectAtRest(s) && p < |s.ports|
    ensures var r := SelectRun(s);
            && |r.ports| == |s.ports| && SelectAtRest(r) && Settled(r)
            && r.ports[p] == s.ports[p].(masterPriority := r.ports[p].masterPriority,
                                         updtInfo := r.ports[p].updtInfo)
    ensures p > 0 && !Settled(s) ==>
              SelectRun(s).selected[p] && (s.ports[p].infoIs == Disabled ==> !SelectRun(s).ports[p].updtInfo)
  {
    SelectRunAwake(s);
    if !Settled(s) { SelectionAt(Awake(s), p); }
  }

  /** The body of the do-while. */
  function Body(s: Sys, p: nat, now: nat): (r: Sys)
    requires Ready(s, p)
    ensures Ready(r, p) && Settled(r) && |r.ports| == |s.ports|
  {
    InfoKeepsSelection(s, p, now);
    SelectKeepsPort(InfoRun(s, p, now), p);
    SelectRun(InfoRun(s, p, now))
  }

  // ------------------------------------------------------------------ termination

  /** The states the do-while can never leave: an update is due that the port's machine will not
      make and nothing will select the port's state again. */
  predicate Stuck(s: Sys, p: nat)
    requires IsPort(s, p)
  {
    var q := s.ports[p];
    && Settled(s)
    && q.updtInfo
    && if q.enabled then (q.state == InAged || q.state == InCurrent) && !s.selected[p] else q.state == InDisabled
  }

  /** An update is due and the port's machine will make it. */
  predicate Pending(s: Sys, p: nat)
    requires IsPort(s, p)
  {
    var q := s.ports[p];
    Settled(s) && q.updtInfo && s.selected[p] && q.enabled && (q.state == InAged || q.state == InCurrent)
  }

  lemma RunPending(v: View, e: Env, now: nat)
    requires Live(v.port) && AtRest(v.port) && Tracks(v.port)
    requires UpdatePending(v) && v.port.enabled && !v.reselect && (v.port.state == InAged || v.port.state == InCurrent)
    ensures var w := Run(v, e, now);
            && Tracks(w.port) && w.port.enabled && (w.port.state == InAged || w.port.state == InCurrent)
            && (!w.reselect ==> !w.port.updtInfo)
            && (w.reselect ==> v.port.rcvdMsg && !w.port.rcvdMsg)
            && (w.port.rcvdMsg ==> v.port.rcvdMsg)
  {
    UpdatingLoop(v, e, now, v.port.rcvdMsg);
    LoopFacts(v, e, now);
  }

  lemma BodyPending(s: Sys, p: nat, now: nat)
    requires Ready(s, p) && Tracks(s.ports[p]) && Pending(s, p)
    ensures var t := Body(s, p, now);
            Tracks(t.ports[p]) && (t.ports[p].updtInfo ==> Pending(t, p) && s.ports[p].rcvdMsg && !t.ports[p].rcvdMsg)
    ensures Body(s, p, now).ports[p].rcvdMsg ==> s.ports[p].rcvdMsg
  {
    RunPending(ViewOf(s, p), EnvOf(s, p), now);
    var w := InfoRun(s, p, now);
    SelectKeepsPort(w, p);
    if w.reselect[p] {
      assert AnyReselect(w);
    } else {
      assert w.reselect == s.reselect;
      SelectRunAwake(w);
    }
  }

  lemma StuckStays(s: Sys, p: nat, now: nat)
    requires Ready(s, p) && Tracks(s.ports[p]) && Stuck(s, p)
    ensures Body(s, p, now) == s
  {
    var v, e := ViewOf(s, p), EnvOf(s, p);
    assert Iterate(v, e, now) == v;
    assert Merge(s, p, v) == s;
    SelectRunAwake(s);
  }

  /** One pass of the do-while from any state at rest. */
  lemma BodyFirst(s: Sys, p: nat, now: nat)
    requires Ready(s, p) && Tracks(s.ports[p])
    ensures var t := Body(s, p, now);
            Tracks(t.ports[p]) && (t.ports[p].updtInfo && !Stuck(s, p) ==> Pending(t, p))
  {
    var v, e := ViewOf(s, p), EnvOf(s, p);
    RunFacts(v, e, now);
    StartFacts(v, e, now);
    var w := InfoRun(s, p, now);
    InfoKeepsSelection(s, p, now);
    SelectKeepsPort(w, p);
    SelectRunAwake(w);
    if Settled(w) {
      assert !w.reselect[p];
      assert s.reselect == w.reselect;
    }
  }

  /** What every pass after the first starts from. */
  predicate Loopable(s: Sys, p: nat) {
    Ready(s, p) && Tracks(s.ports[p]) && Settled(s) && (s.ports[p].updtInfo ==> Pending(s, p))
  }

  function Rank(s: Sys, p: nat): nat
    requires p < |s.ports|
  {
    (if s.ports[p].rcvdMsg then 2 else 0) + (if s.ports[p].updtInfo then 1 else 0)
  }

  lemma BodyLoopable(s: Sys, p: nat, now: nat)
    requires Loopable(s, p) && s.ports[p].updtInfo
    ensures Loopable(Body(s, p, now), p) && Rank(Body(s, p, now), p) < Rank(s, p)
  {
    BodyPending(s, p, now);
  }

  /** The do-while after its first pass. */
  function Again(s: Sys, p: nat, now: nat): (r: Sys)
    requires Loopable(s, p)
    ensures Loopable(r, p) && |r.ports| == |s.ports|
    ensures !r.ports[p].updtInfo
    decreases Rank(s, p)
  {
    if !s.ports[p].updtInfo then s
    else
      BodyLoopable(s, p, now);
      Again(Body(s, p, now), p, now)
  }

  /** The whole do-while. */
  function Perform(s: Sys, p: nat, now: nat): (r: Sys)
    requires Ready(s, p) && Tracks(s.ports[p]) && !Stuck(s, p)
    ensures Ready(r, p) && Tracks(r.ports[p]) && Settled(r) && |r.ports| == |s.ports|
    ensures !r.ports[p].updtInfo
  {
    BodyFirst(s, p, now);
    Again(Body(s, p, now), p, now)
  }

  /** `n` passes of the do-while, whatever its condition says. */
  function Passes(s: Sys, p: nat, now: nat, n: nat): (r: Sys)
    requires Ready(s, p)
    ensures Ready(r, p)
    decreases n
  {
    if n == 0 then s else Passes(Body(s, p, now), p, now, n - 1)
  }

  /** The condition fails after some pass. */
  ghost predicate Terminates(s: Sys, p: nat, now: nat)
    requires Ready(s, p)
  {
    exists n: nat :: n >= 1 && !Passes(s, p, now, n).ports[p].updtInfo
  }

  lemma {:induction false} PassesOfStuck(s: Sys, p: nat, now: nat, n: nat)
    requires Ready(s, p) && Tracks(s.ports[p]) && Stuck(s, p)
    ensures Passes(s, p, now, n) == s
  {
    if n > 0 {
      StuckStays(s, p, now);
      PassesOfStuck(s, p, now, n - 1);
    }
  }

  lemma AgainStep(s: Sys, p: nat, now: nat, n: nat)
    requires Loopable(s, p) && s.ports[p].updtInfo
    ensures Loopable(Body(s, p, now), p)
    ensures Again(s, p, now) == Again(Body(s, p, now), p, now)
    ensures Passes(s, p, now, n + 1) == Passes(Body(s, p, now), p, now, n)
  {
    BodyLoopable(s, p, now);
  }

  /** After the first pass, one more for the update and one more if a message was waiting. */
  lemma AgainPasses(s: Sys, p: nat, now: nat)
    requires Loopable(s, p)
    ensures exists n: nat :: n <= 2 && Again(s, p, now) == Passes(s, p, now, n)
  {
    if !s.ports[p].updtInfo {
      assert Again(s, p, now) == Passes(s, p, now, 0);
    } else {
      var t := Body(s, p, now);
      AgainStep(s, p, now, 0);
      if !t.ports[p].updtInfo {
        assert Again(t, p, now) == Passes(t, p, now, 0);
        assert Again(s, p, now) == Passes(s, p, now, 1);
      } else {
        var u := Body(t, p, now);
        BodyPending(s, p, now);
        BodyPending(t, p, now);
        AgainStep(t, p, now, 0);
        AgainStep(s, p, now, 1);
        assert Again(u, p, now) == Passes(u, p, now, 0);
        assert Again(s, p, now) == Passes(s, p, now, 2);
      }
    }
  }

  /** The do-while ends from exactly the states that are not stuck, after at most three passes. */
  lemma PerformTerminatesIff(s: Sys, p: nat, now: nat)
    requires Ready(s, p) && Tracks(s.ports[p])
    ensures Terminates(s, p, now) <==> !Stuck(s, p)
    ensures !Stuck(s, p) ==> exists n :: 1 <= n <= 3 && Perform(s, p, now) == Passes(s, p, now, n)
  {
    if Stuck(s, p) {
      forall n: nat ensures Passes(s, p, now, n) == s { PassesOfStuck(s, p, now, n); }
    } else {
      BodyFirst(s, p, now);
      var t := Body(s, p, now);
      AgainPasses(t, p, now);
      var n: nat :| n <= 2 && Again(t, p, now) == Passes(t, p, now, n);
      assert Perform(s, p, now) == Passes(s, p, now, n + 1);
    }
  }

  /** A port that has aged and has an update due, but is neither selected nor to be selected again. */
  function StuckExample(root: SystemIdentity, config: PortConfig): Sys {
    var s := NewSys(root, NO_PROPS, false, [config, config]);
    s.(ports := s.ports[1 := InitialPort(config).(enabled := true, infoIs := Aged, updtInfo := true,
                                                  state := InAged, lastState := InAged)],
       selState := SelStateSelection, selLast := SelStateSelection)
  }

  /** For instance from this state, which no run reaches, the do-while would never end. */
  lemma StuckStatesDoNotTerminate(root: SystemIdentity, config: PortConfig, now: nat)
    ensures Ready(StuckExample(root, config), 1) && !Terminates(StuckExample(root, config), 1, now)
  {
    PerformTerminatesIff(StuckExample(root, config), 1, now);
  }
}

/** How long a port holds what it heard, over every run of a system: until its timeout, and no longer. */
module Ageing {
  import opened Words
  import opened Priority
  import opened BmcsState
  import opened PortSelection
  import opened PortInformation
  import opened BmcsPerform
  import opened BmcsInvariants
  import opened PathTrace
  import opened Settling

  // ------------------------------------------------------------------ what lasts

  /** A port that holds a neighbour's information or announces its own. */
  predicate Informed(q: Port) { q.enabled && (q.infoIs == Received || q.infoIs == Mine) }

  /** Neither timeout of information received has come. */
  predicate InTime(q: Port, now: nat) {
    q.infoIs == Received ==> now < q.timers.announceTime && now < q.timers.syncTime
  }

  /** Information stays, to the same timeout, or gives way to the system's own. */
  predicate Stays(q: Port, r: Port) {
    Informed(r) && (r.infoIs == Received ==>
      && q.infoIs == Received && r.portPriority == q.portPriority && r.ann == q.ann
      && r.timers.announceTime == q.timers.announceTime && r.timers.announceInterval == q.timers.announceInterval)
  }

  lemma {:induction false} LoopStays(v: View, e: Env, now: nat)
    requires Live(v.port) && Informed(v.port) && !v.port.rcvdMsg && InTime(v.port, now)
    requires v.port.state == InCurrent || v.port.state == InUpdate
    ensures var r := Loop(v, e, now).port;
            Stays(v.port, r) && !r.rcvdMsg && r.timers == v.port.timers
    decreases Measure(v)
  {
    StepDecreases(v, e, now);
    var w := Iterate(v, e, now);
    if !Done(w) { LoopStays(w, e, now); }
  }

  lemma InfoStays(s: Sys, p: nat, now: nat)
    requires Ready(s, p) && Tracks(s.ports[p]) && Informed(s.ports[p]) && !s.ports[p].rcvdMsg && InTime(s.ports[p], now)
    ensures var r := InfoRun(s, p, now).ports[p];
            Stays(s.ports[p], r) && !r.rcvdMsg && r.timers == s.ports[p].timers
  {
    LoopStays(Enter(ViewOf(s, p)), EnvOf(s, p), now);
  }

  lemma BodyStays(s: Sys, p: nat, now: nat)
    requires Ready(s, p) && Tracks(s.ports[p]) && Informed(s.ports[p]) && !s.ports[p].rcvdMsg && InTime(s.ports[p], now)
    ensures var r := Body(s, p, now).ports[p];
            Stays(s.ports[p], r) && !r.rcvdMsg && r.timers == s.ports[p].timers
  {
    hide Run;
    hide SelectRun;
    InfoStays(s, p, now);
    InfoKeepsSelection(s, p, now);
    SelectKeepsPort(InfoRun(s, p, now), p);
  }

  lemma {:induction false} AgainStays(s: Sys, p: nat, now: nat)
    requires Loopable(s, p) && Informed(s.ports[p]) && !s.ports[p].rcvdMsg && InTime(s.ports[p], now)
    ensures Stays(s.ports[p], Again(s, p, now).ports[p])
    decreases Rank(s, p)
  {
    hide Body;
    if s.ports[p].updtInfo {
      BodyStays(s, p, now);
      BodyLoopable(s, p, now);
      AgainStep(s, p, now, 0);
      AgainStays(Body(s, p, now), p, now);
    }
  }

  lemma PerformStays(s: Sys, p: nat, now: nat)
    requires Ready(s, p) && Tracks(s.ports[p]) && !Stuck(s, p)
    requires Informed(s.ports[p]) && !s.ports[p].rcvdMsg && InTime(s.ports[p], now)
    ensures Stays(s.ports[p], Perform(s, p, now).ports[p])
  {
    hide Body;
    BodyStays(s, p, now);
    BodyFirst(s, p, now);
    AgainStays(Body(s, p, now), p, now);
  }

  // ------------------------------------------------------------------ one event

  /** An event at which port `p` hears nothing and stays enabled, and whose calls on it are in time. */
  predicate Undisturbed(s: Sys, p: nat, ev: Event)
    requires IsPort(s, p)
  {
    match ev
    case InfoCall(q, now) => q == p ==> InTime(s.ports[p], now)
    case Timeout(q, now) => q == p ==> InTime(s.ports[p], now)
    case Arrival(q, _, _) => q != p
    case Enable(q, on) => q == p ==> on
    case SelectCall => true
    case SyncSeen(_) => true
  }

  lemma StepStays(s: Sys, p: nat, ev: Event)
    requires Between(s) && IsPort(s, p) && Informed(s.ports[p]) && Undisturbed(s, p, ev)
    ensures IsPort(Step(s, ev), p) && Stays(s.ports[p], Step(s, ev).ports[p])
  {
    hide Perform;
    hide Run;
    hide SelectRun;
    hide PortInv;
    NeverStuck(s, p);
    match ev
    case InfoCall(q, now) => if q == p { InfoStays(s, p, now); }
    case SelectCall => SelectKeepsPort(s, p);
    case Timeout(q, now) =>
      if IsPort(s, q) {
        NeverStuck(s, q);
        if q == p { PerformStays(s, p, now); } else { PerformKeepsRest(s, q, now); }
      }
    case Arrival(q, a, now) =>
      if IsPort(s, q) {
        ArrivalIsPerform(s, q, a, now);
        PerformKeepsRest(RecvAnnounce(s, q, a), q, now);
      }
    case Enable(q, on) =>
    case SyncSeen(time) =>
  }

  // ------------------------------------------------------------------ runs

  /** The same along a run. */
  ghost predicate UndisturbedRun(s: Sys, p: nat, events: seq<Event>)
    requires Between(s) && IsPort(s, p)
    decreases |events|
  {
    events != [] ==> Undisturbed(s, p, events[0]) && UndisturbedRun(Step(s, events[0]), p, events[1..])
  }

  /** Whatever happens elsewhere in the system, whichever machines are called and however often, no call
      before its timeouts ages what a port holds. */
  lemma {:induction false} InformationLasts(s: Sys, p: nat, events: seq<Event>)
    requires Between(s) && IsPort(s, p) && Informed(s.ports[p]) && UndisturbedRun(s, p, events)
    ensures IsPort(RunEvents(s, events), p) && Stays(s.ports[p], RunEvents(s, events).ports[p])
    decreases |events|
  {
    hide Step;
    hide Between;
    if events != [] {
      StepStays(s, p, events[0]);
      InformationLasts(Step(s, events[0]), p, events[1..]);
    }
  }

  // ------------------------------------------------------------------ the timeout

  predicate Expired(q: Port, now: nat) { q.infoIs == Received ==> now >= q.timers.announceTime }

  /** A call from the announce timeout on leaves no trace of the neighbour in the port. */
  lemma InfoForgets(s: Sys, p: nat, now: nat)
    requires Between(s) && IsPort(s, p) && Informed(s.ports[p]) && Expired(s.ports[p], now)
    ensures Ready(s, p) && Unheard(InfoRun(s, p, now).ports[p])
  {
    NeverStuck(s, p);
    assert PortInv(s, p);
    var v, e := ViewOf(s, p), EnvOf(s, p);
    if v.port.infoIs == Received {
      if v.port.updtInfo { UpdateIsMade(v, e, now); } else { ReceivedAgesIff(v, e, now); }
    } else {
      UnheardLoop(Enter(v), e, now);
    }
  }

  lemma BodyForgets(s: Sys, p: nat, now: nat)
    requires Between(s) && IsPort(s, p) && Informed(s.ports[p]) && Expired(s.ports[p], now)
    ensures Ready(s, p) && Tracks(s.ports[p]) && !Stuck(s, p)
    ensures var q := Body(s, p, now).ports[p];
            Unheard(q) && q.enabled && (q.state == InAged || q.state == InCurrent)
  {
    hide Run;
    hide SelectRun;
    NeverStuck(s, p);
    InfoForgets(s, p, now);
    BodyOfEnabled(s, p, now);
    InfoKeepsSelection(s, p, now);
    SelectKeepsPort(InfoRun(s, p, now), p);
  }

  /** The first call from the announce timeout on ends what the port holds: it announces the system's own
      choice. A system that holds nothing on any other port is then its own grandmaster. */
  lemma InformationEnds(s: Sys, p: nat, now: nat)
    requires Between(s) && IsPort(s, p) && Informed(s.ports[p]) && Expired(s.ports[p], now)
    ensures var r := Step(s, Timeout(p, now));
            && Rests(r, p) && r.ports[p].infoIs == Mine && MayTransmit(r, p)
            && ((forall i: nat :: IsPort(s, i) && i != p ==> s.ports[i].infoIs != Received) ==>
                  r.gmPriority == r.systemPriority && r.selectedState[0] == SlavePort)
  {
    hide Body;
    hide Again;
    hide PortInv;
    TimeoutIsPerform(s, p, now);
    BodyForgets(s, p, now);
    BodyFirst(s, p, now);
    AgainOfEnabled(Body(s, p, now), p, now);
    PerformRests(s, p, now);
    PerformKeepsRest(s, p, now);
    var r := Perform(s, p, now);
    MineMayTransmit(r, p);
    if forall i: nat :: IsPort(s, i) && i != p ==> s.ports[i].infoIs != Received {
      assert AllUnheard(r);
      UnheardIsGrandmaster(r);
    }
  }

  // ------------------------------------------------------------------ what starts it

  /** What a port holds just after `a` was heard, if it does not announce the system's own choice instead. */
  predicate HoldsFrom(r: Port, m: PriorityVector, interval: nat, t0: nat) {
    Informed(r) && (r.infoIs == Received ==>
      r.portPriority == m && r.timers.announceInterval == interval && r.timers.announceTime == t0 + interval)
  }

  /** A settled system in which an announce on port `p` is looked at. */
  ghost predicate Listens(s: Sys, p: nat, a: Announce) {
    Rests(s, p) && Qualified(s, a) && s.selectedState[p] != DisabledPort
  }

  /** Timeouts of zero length have come at once. */
  predicate LastingSync(q: Port) { q.config.syncReceiptTimeout * LogToNsec(q.config.logSyncInterval) > 0 }

  /** What the information machine makes of an announce is what the whole do-while makes of it. */
  lemma HoldsAfter(s: Sys, p: nat, now: nat, m: PriorityVector, interval: nat)
    requires SysInv(s) && IsPort(s, p) && QuietBut(s, p) && s.ports[p].enabled && Ready(s, p)
    requires var q := InfoRun(s, p, now).ports[p];
             HoldsFrom(q, m, interval, now) && !q.rcvdMsg && InTime(q, now)
    ensures Tracks(s.ports[p]) && !Stuck(s, p) && HoldsFrom(Perform(s, p, now).ports[p], m, interval, now)
  {
    hide Run;
    hide SelectRun;
    hide Again;
    NeverStuck(s, p);
    BodyFirst(s, p, now);
    InfoKeepsSelection(s, p, now);
    SelectKeepsPort(InfoRun(s, p, now), p);
    var q := Body(s, p, now).ports[p];
    assert HoldsFrom(q, m, interval, now) && !q.rcvdMsg && InTime(q, now);
    hide Body;
    AgainStays(Body(s, p, now), p, now);
  }

  /** It is looked at. */
  lemma IsHeard(s: Sys, p: nat, a: Announce)
    requires Listens(s, p, a)
    ensures var t := RecvAnnounce(s, p, a);
            && IsPort(t, p) && Hears(ViewOf(t, p)) && EnvOf(t, p) == EnvOf(s, p)
            && ViewOf(t, p) == ViewOf(s, p).(port := s.ports[p].(rcvdAnnounce := Some(a), rcvdMsg := true))
            && SysInv(t) && QuietBut(t, p) && Ready(t, p)
  {
    hide Coherent;
    hide Superior;
    ArrivalKeeps(s, p, a);
    NeverStuck(RecvAnnounce(s, p, a), p);
  }

  /** A superior announce is held for announceReceiptTimeout intervals from its arrival. */
  lemma SuperiorHolds(s: Sys, p: nat, a: Announce, t0: nat)
    requires Listens(s, p, a) && Superior(MessageVector(a, p), s.ports[p].portPriority) && LastingSync(s.ports[p])
    requires s.ports[p].config.announceReceiptTimeout * LogToNsec(a.logMessageInterval) > 0
    ensures HoldsFrom(Step(s, Arrival(p, a, t0)).ports[p], MessageVector(a, p),
                      s.ports[p].config.announceReceiptTimeout * LogToNsec(a.logMessageInterval), t0)
  {
    hide Perform;
    hide LogToNsec;
    hide Superior;
    hide PortInv;
    hide Run;
    hide RecvAnnounce;
    var t := RecvAnnounce(s, p, a);
    ArrivalIsPerform(s, p, a, t0);
    IsHeard(s, p, a);
    SuperiorTakesOver(ViewOf(t, p), EnvOf(t, p), t0);
    HoldsAfter(t, p, t0, MessageVector(a, p),
               s.ports[p].config.announceReceiptTimeout * LogToNsec(a.logMessageInterval));
  }

  /** A repeated one is held for the interval of the one it repeats, from its own arrival. */
  lemma RepeatedHolds(s: Sys, p: nat, a: Announce, t0: nat)
    requires Listens(s, p, a) && MessageVector(a, p) == s.ports[p].portPriority && s.ports[p].infoIs == Received
    requires s.ports[p].timers.announceInterval > 0 && t0 < s.ports[p].timers.syncTime
    ensures HoldsFrom(Step(s, Arrival(p, a, t0)).ports[p], MessageVector(a, p), s.ports[p].timers.announceInterval, t0)
  {
    hide Perform;
    hide Superior;
    var t := RecvAnnounce(s, p, a);
    hide PortInv;
    ArrivalIsPerform(s, p, a, t0);
    IsHeard(s, p, a);
    var v, e := ViewOf(t, p), EnvOf(t, p);
    RepeatedOnlyRefreshes(v, e, t0);
    var q := v.port;
    var u := v.(port := q.(timers := q.timers.(announceTime := t0 + q.timers.announceInterval), rcvdMsg := false,
                           rcvdAnnounce := None, messagePriority := q.portPriority, rcvdInfo := RepeatedMasterInfo));
    LoopStays(Enter(u), e, t0);
    HoldsAfter(t, p, t0, MessageVector(a, p), q.timers.announceInterval);
  }

  // ------------------------------------------------------------------ the whole law

  lemma {:induction false} HoldsLasts(s: Sys, p: nat, events: seq<Event>, m: PriorityVector, interval: nat, t0: nat)
    requires Between(s) && IsPort(s, p) && HoldsFrom(s.ports[p], m, interval, t0) && UndisturbedRun(s, p, events)
    ensures IsPort(RunEvents(s, events), p) && HoldsFrom(RunEvents(s, events).ports[p], m, interval, t0)
  {
    hide Between;
    InformationLasts(s, p, events);
  }

  /** An announce heard at `t0`, superior or repeated, is held over every run of the system until `t0` plus
      its interval, and the first call from then on ends that: whatever calls are made before. */
  lemma HeldForItsInterval(s: Sys, p: nat, a: Announce, t0: nat, interval: nat, events: seq<Event>, now: nat)
    requires Listens(s, p, a) && interval > 0 && LastingSync(s.ports[p])
    requires if MessageVector(a, p) == s.ports[p].portPriority
             then s.ports[p].infoIs == Received && interval == s.ports[p].timers.announceInterval &&
                  t0 < s.ports[p].timers.syncTime
             else Superior(MessageVector(a, p), s.ports[p].portPriority) &&
                  interval == s.ports[p].config.announceReceiptTimeout * LogToNsec(a.logMessageInterval)
    requires UndisturbedRun(Step(s, Arrival(p, a, t0)), p, events) && now >= t0 + interval
    ensures var r := RunEvents(Step(s, Arrival(p, a, t0)), events);
            && IsPort(r, p) && HoldsFrom(r.ports[p], MessageVector(a, p), interval, t0)
            && Rests(Step(r, Timeout(p, now)), p) && Step(r, Timeout(p, now)).ports[p].infoIs == Mine
  {
    hide Step;
    hide LogToNsec;
    hide Superior;
    hide PortInv;
    if MessageVector(a, p) == s.ports[p].portPriority { RepeatedHolds(s, p, a, t0); } else { SuperiorHolds(s, p, a, t0); }
    HoldsLasts(Step(s, Arrival(p, a, t0)), p, events, MessageVector(a, p), interval, t0);
    InformationEnds(RunEvents(Step(s, Arrival(p, a, t0)), events), p, now);
  }
}

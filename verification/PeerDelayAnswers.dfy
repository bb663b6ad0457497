/** Which events the peer delay requester takes for an answer, and what becomes of a request that has
    none: over every order of events, from the messages and times alone. */
module PeerDelayAnswers {
  import opened Words
  import opened Priority
  import opened BmcsState
  import opened PeerDelay
  import opened PeerDelayRequester
  import opened PeerDelayRuns
  import A = AsCapable

  // ------------------------------------------------------------------ what counts as an answer

  /** A response to request `id`, or to an earlier one, from another system. */
  predicate GoodResp(c: Config, id: uint16, r: Resp) {
    && r.source.clockIdentity != c.thisClock && r.requester == PortIdentity(c.thisClock, c.thisPort)
    && (c.cmlds || r.sdoId == 1) && r.sequenceId <= id
  }

  /** A follow-up for request `id`, from another system, when `r` is the last response. */
  predicate GoodFup(c: Config, id: uint16, r: Resp, f: RespFup) {
    && f.source.clockIdentity != c.thisClock && (c.cmlds || f.sdoId == 1) && f.sequenceId == id
    && (f.source == r.source || r.requester == PortIdentity(c.thisClock, c.thisPort))
  }

  predicate Exchanges(acts: seq<A.Act>) { exists i :: 0 <= i < |acts| && acts[i].Exchange? }

  function CountResets(acts: seq<A.Act>): nat {
    if acts == [] then 0
    else CountResets(acts[..|acts| - 1]) + if acts[|acts| - 1].ResetEntered? then 1 else 0
  }

  /** The last request is less than an interval old. */
  predicate Recent(s: Req, c: Config, now: uint64) { Minus(now, s.timer) < c.interval }

  // ------------------------------------------------------------------ the course of a call

  /** States between events. */
  predicate Rest(s: Req) {
    s.state != Reaction && (s.lastState == s.state || (s.lastState == Reaction && (s.state == Send || s.state == InitialSend)))
  }

  lemma LoopStep(s: Req, c: Config, x: Ambient)
    ensures var r := Iterate(s, c, x);
            Loop(s, c, x) == if r.ends || Done(r.s) then r
                             else if r.acts == [] then Loop(r.s, c, x)
                             else Passed(Loop(r.s, c, x).s, Loop(r.s, c, x).ends, r.acts + Loop(r.s, c, x).acts)
  {
    assert [] + Loop(Iterate(s, c, x).s, c, x).acts == Loop(Iterate(s, c, x).s, c, x).acts;
  }

  /** A request is attempted, and nothing else happens. */
  ghost predicate Attempts(s: Req, c: Config, x: Ambient, r: Passed) {
    && r.ends && r.acts == [] && r.s.state == Send && !r.s.rcvdResp && !r.s.rcvdFup && r.s.counters == s.counters
    && r.s.sentId == Next16(s.sequenceId) && r.s.resp == s.resp && r.s.enabled == s.enabled
    && r.s.rcvdTimestamp == s.rcvdTimestamp
    && if x.outcome.Failed? then r.s.timer == s.timer && r.s.lastState == Reaction && r.s.sequenceId == s.sequenceId
       else r.s.timer == x.now && r.s.lastState == Send && r.s.sequenceId == r.s.sentId
  }

  lemma SendLoop(s: Req, c: Config, x: Ambient)
    requires s.state == Send && s.lastState != Send
    ensures Attempts(s, c, x, Loop(s, c, x))
  {
    hide Minus;
    LoopStep(s, c, x);
  }

  lemma TimerLoop(s: Req, c: Config, x: Ambient)
    requires s.state == WaitingForIntervalTimer && s.lastState != s.state && Recent(s, c, x.now)
    ensures var r := Loop(s, c, x);
            && !r.ends && |r.acts| == 1 && r.acts[0] == ExchangeAct(s, c) && r.s.state == r.s.lastState == WaitingForIntervalTimer
            && r.s.timer == s.timer && r.s.sentId == s.sentId && !r.s.rcvdFup && r.s.rcvdResp == s.rcvdResp
            && r.s.resp == s.resp && r.s.enabled == s.enabled
  {
    hide PropTime;
    hide MeasuredRatio;
    hide Averaged;
    hide InWindow;
    hide A.AfterExchange;
    LoopStep(s, c, x);
  }

  /** Whether the request of a requester waiting for the follow-up is answered: a second response to it
      ends that, unless it was the first one that led here. */
  predicate FollowedUp(s: Req, c: Config)
    requires s.resp.Some?
  {
    s.rcvdFup && GoodFup(c, s.sentId, s.resp.value, s.fup.value) &&
    !(s.lastState == WaitingForRespFollowUp && s.rcvdResp && s.resp.value.sequenceId == s.sentId)
  }

  /** What of a request stays while it waits. */
  predicate SameRequest(s: Req, r: Req) {
    && r.timer == s.timer && r.sentId == s.sentId && r.resp == s.resp && r.fup == s.fup && r.enabled == s.enabled
    && (r.rcvdResp ==> s.rcvdResp) && (r.rcvdFup ==> s.rcvdFup) && (r.rcvdTimestamp ==> s.rcvdTimestamp)
  }

  /** Nothing sent, and an exchange exactly when `answered`. */
  ghost predicate Answers(s: Req, r: Passed, answered: bool) {
    && !r.ends && SameRequest(s, r.s) && (Exchanges(r.acts) <==> answered)
    && (answered ==> r.s.state == r.s.lastState == WaitingForIntervalTimer && |r.acts| == 1)
  }

  /** A reset less than an interval after the request waits for the interval. */
  lemma ResetLoop(s: Req, c: Config, x: Ambient)
    requires s.state == Reset && s.lastState != Reset && Recent(s, c, x.now)
    ensures Answers(s, Loop(s, c, x), false)
  {
    hide A.AfterReset;
    LoopStep(s, c, x);
  }

  lemma FollowUpPassed(s: Req, c: Config, x: Ambient)
    requires s.state == WaitingForRespFollowUp && Recent(s, c, x.now)
    ensures var r := Iterate(s, c, x);
            && !r.ends && SameRequest(s, r.s) && !Exchanges(r.acts) && r.s.lastState == s.state
            && (r.s.state == WaitingForIntervalTimer <==> FollowedUp(s, c))
            && (r.s.state == s.state || r.s.state == Reset || r.s.state == WaitingForIntervalTimer)
            && (r.s.state == WaitingForIntervalTimer ==> r.acts == [])
  {
    hide Minus;
  }

  lemma FollowUpLoop(s: Req, c: Config, x: Ambient)
    requires s.state == WaitingForRespFollowUp && Recent(s, c, x.now)
    ensures Answers(s, Loop(s, c, x), FollowedUp(s, c))
  {
    FollowUpPassed(s, c, x);
    hide Iterate;
    hide Minus;
    hide FollowedUp;
    hide ExchangeAct;
    hide GoodFup;
    hide LeadsOn;
    hide Rank;
    LoopStep(s, c, x);
    var r := Iterate(s, c, x).s;
    if r.state == WaitingForIntervalTimer {
      TimerLoop(r, c, x);
    } else if r.state == Reset {
      ResetLoop(r, c, x);
    }
  }

  /** A response that has come, and then its follow-up. */
  predicate BothCame(s: Req, c: Config) {
    s.rcvdResp && GoodResp(c, s.sentId, s.resp.value) && s.rcvdFup && GoodFup(c, s.sentId, s.resp.value, s.fup.value)
  }

  lemma RespPassed(s: Req, c: Config, x: Ambient)
    requires s.state == WaitingForResp && Recent(s, c, x.now)
    ensures var r := Iterate(s, c, x);
            && !r.ends && SameRequest(s, r.s) && r.acts == [] && r.s.lastState == s.state
            && (r.s.state == WaitingForRespFollowUp <==> s.rcvdResp && GoodResp(c, s.sentId, s.resp.value))
            && (r.s.state == s.state || r.s.state == Reset || r.s.state == WaitingForRespFollowUp)
            && (r.s.state == WaitingForRespFollowUp ==> r.s.rcvdFup == s.rcvdFup)
  {
    hide Minus;
  }

  lemma RespLoop(s: Req, c: Config, x: Ambient)
    requires s.state == WaitingForResp && Recent(s, c, x.now)
    ensures Answers(s, Loop(s, c, x), BothCame(s, c))
  {
    RespPassed(s, c, x);
    hide Iterate;
    hide Minus;
    LoopStep(s, c, x);
    var r := Iterate(s, c, x).s;
    if r.state == WaitingForRespFollowUp {
      FollowUpLoop(r, c, x);
    } else if r.state == Reset {
      ResetLoop(r, c, x);
    }
  }

  /** A request, once sent, is timestamped by the network or, that failing, by the software clock. */
  predicate Timestamped(s: Req, c: Config, now: uint64) {
    s.lastState == s.state && (s.rcvdTimestamp || (Minus(now, s.timer) >= c.txtsLost && s.mockTs != 0))
  }

  lemma SentPassed(s: Req, c: Config, x: Ambient)
    requires (s.state == Send || s.state == InitialSend) && Timestamped(s, c, x.now)
    ensures var r := Iterate(s, c, x);
            && !r.ends && SameRequest(s, r.s) && r.acts == [] && r.s.lastState == s.state && r.s.state == WaitingForResp
            && r.s.rcvdResp == s.rcvdResp && r.s.rcvdFup == s.rcvdFup && r.s.counters == s.counters
  {
    hide Minus;
  }

  lemma SentLoop(s: Req, c: Config, x: Ambient)
    requires (s.state == Send || s.state == InitialSend) && Timestamped(s, c, x.now) && Recent(s, c, x.now)
    ensures Answers(s, Loop(s, c, x), BothCame(s, c))
  {
    SentPassed(s, c, x);
    hide Iterate;
    hide Minus;
    LoopStep(s, c, x);
    RespLoop(Iterate(s, c, x).s, c, x);
  }

  // ------------------------------------------------------------------ a request that is not answered

  /** What a reset does once the interval is over: it is counted, and the next request is attempted, unless
      the port is silent after double answers. */
  ghost predicate Lapses(s: Req, c: Config, x: Ambient, r: Passed) {
    var d := A.AfterReset(c.limits, s.counters);
    var silent := c.limits.conformToAvnu && d.multi >= c.limits.allowedLostResponses;
    var forgets := silent && Minus(x.now, s.timer) >= 300_000_000_000;
    && r.acts == [A.ResetEntered] + (if forgets then [A.AnswersForgotten] else [])
    && r.s.counters == (if forgets then d.(multi := 0) else d)
    && r.s.enabled == s.enabled && (r.s.rcvdTimestamp ==> s.rcvdTimestamp)
    && if silent && !forgets then !r.ends && r.s.state == r.s.lastState == Reset && r.s.timer == s.timer && SameRequest(s, r.s)
       else
         && r.ends && r.s.state == Send && !r.s.rcvdResp && !r.s.rcvdFup && r.s.sentId == Next16(s.sequenceId)
         && if x.outcome.Failed? then r.s.timer == s.timer && r.s.lastState == Reaction && r.s.sequenceId == s.sequenceId
            else r.s.timer == x.now && r.s.lastState == Send && r.s.sequenceId == r.s.sentId
  }

  lemma ResetPassed(s: Req, c: Config, x: Ambient)
    requires s.state == Reset && s.lastState != Reset && !Recent(s, c, x.now)
    ensures var r := Iterate(s, c, x);
            var d := A.AfterReset(c.limits, s.counters);
            var silent := c.limits.conformToAvnu && d.multi >= c.limits.allowedLostResponses;
            var forgets := silent && Minus(x.now, s.timer) >= 300_000_000_000;
            && !r.ends && r.acts == [A.ResetEntered] + (if forgets then [A.AnswersForgotten] else [])
            && r.s.counters == (if forgets then d.(multi := 0) else d) && SameRequest(s, r.s)
            && r.s.lastState == Reset && r.s.state == (if silent && !forgets then Reset else Send)
            && r.s.sequenceId == s.sequenceId
  {
    hide Minus;
    hide A.AfterReset;
  }

  lemma ResetLapses(s: Req, c: Config, x: Ambient)
    requires s.state == Reset && s.lastState != Reset && !Recent(s, c, x.now)
    ensures Lapses(s, c, x, Loop(s, c, x))
  {
    ResetPassed(s, c, x);
    hide Iterate;
    hide Minus;
    hide A.AfterReset;
    LoopStep(s, c, x);
    var r := Iterate(s, c, x).s;
    if r.state == Send {
      SendLoop(r, c, x);
      assert Iterate(s, c, x).acts + [] == Iterate(s, c, x).acts;
    }
  }

  lemma OverduePassed(s: Req, c: Config, x: Ambient)
    requires s.state == WaitingForResp || s.state == WaitingForRespFollowUp
    requires !Recent(s, c, x.now)
    ensures var r := Iterate(s, c, x);
            && !r.ends && SameRequest(s, r.s) && r.acts == [] && r.s.lastState == s.state && r.s.state == Reset
            && r.s.counters == s.counters && r.s.sequenceId == s.sequenceId
  {
    hide Minus;
  }

  lemma OverdueLoop(s: Req, c: Config, x: Ambient)
    requires s.state == WaitingForResp || s.state == WaitingForRespFollowUp
    requires !Recent(s, c, x.now)
    ensures Lapses(s, c, x, Loop(s, c, x))
  {
    OverduePassed(s, c, x);
    hide Iterate;
    hide Minus;
    hide A.AfterReset;
    LoopStep(s, c, x);
    ResetLapses(Iterate(s, c, x).s, c, x);
  }

  /** The first call an interval or more after a request that is still not answered counts it as lost, once,
      and attempts the next one. */
  lemma OverdueLapses(s: Req, c: Config, x: Ambient)
    requires s.enabled && (s.state == WaitingForResp || s.state == WaitingForRespFollowUp)
    requires Minus(x.now, s.timer) >= c.interval
    ensures Lapses(s, c, x, Call(s, c, x))
  {
    OverdueLoop(s, c, x);
  }

  lemma {:induction false} CountMore(f: seq<A.Act>, g: seq<A.Act>)
    ensures CountResets(f + g) == CountResets(f) + CountResets(g)
  {
    if g == [] {
      assert f + g == f;
    } else {
      CountMore(f, g[..|g| - 1]);
      assert (f + g)[..|f + g| - 1] == f + g[..|g| - 1];
    }
  }

  // ------------------------------------------------------------------ exactly when there is an exchange

  /** States that do not lead to an exchange in the same call. */
  predicate Away(s: Req, c: Config, now: uint64) {
    match s.state
    case Init => true
    case NotEnabled => true
    case InitialSend => !Timestamped(s, c, now)
    case Send => !Timestamped(s, c, now)
    case Reset => true
    case WaitingForIntervalTimer => s.lastState == s.state
    case _ => false
  }

  ghost predicate StaysAway(c: Config, now: uint64, r: Passed) {
    !Exchanges(r.acts) && (r.ends || Done(r.s) || Away(r.s, c, now))
  }

  lemma SendingAway(s: Req, c: Config, x: Ambient)
    requires Away(s, c, x.now) && (s.state == InitialSend || s.state == Send)
    ensures StaysAway(c, x.now, Iterate(s, c, x))
  {
    hide Minus;
  }

  lemma RestingAway(s: Req, c: Config, x: Ambient)
    requires Away(s, c, x.now) && s.state != InitialSend && s.state != Send
    ensures StaysAway(c, x.now, Iterate(s, c, x))
  {
    hide Minus;
    hide A.AfterReset;
    hide SendProc;
    hide InitialSendProc;
  }

  lemma AwayPassed(s: Req, c: Config, x: Ambient)
    requires Away(s, c, x.now)
    ensures StaysAway(c, x.now, Iterate(s, c, x))
  {
    hide Iterate;
    hide Away;
    if s.state == InitialSend || s.state == Send { SendingAway(s, c, x); } else { RestingAway(s, c, x); }
  }

  lemma {:induction false} AwayLoop(s: Req, c: Config, x: Ambient)
    requires Away(s, c, x.now)
    ensures !Exchanges(Loop(s, c, x).acts)
    decreases Rank(s.state, Done(s))
  {
    AwayPassed(s, c, x);
    hide Iterate;
    hide Away;
    LoopStep(s, c, x);
    var r := Iterate(s, c, x);
    if !r.ends && !Done(r.s) { AwayLoop(r.s, c, x); }
  }

  /** Whether a call finds the last request answered, in time. */
  predicate Completes(s: Req, c: Config, now: uint64) {
    s.enabled && Minus(now, s.timer) < c.interval &&
    match s.state
    case WaitingForRespFollowUp => FollowedUp(s, c)
    case WaitingForResp => BothCame(s, c)
    case Send => Timestamped(s, c, now) && BothCame(s, c)
    case InitialSend => Timestamped(s, c, now) && BothCame(s, c)
    case _ => false
  }

  lemma LapsesWithout(s: Req, c: Config, x: Ambient, r: Passed)
    requires Lapses(s, c, x, r)
    ensures !Exchanges(r.acts)
  {
    hide A.AfterReset;
    hide Minus;
  }

  /** A call makes an exchange exactly when it finds the request answered; it then does nothing else. */
  lemma CallExchangesIff(s: Req, c: Config, x: Ambient)
    requires Rest(s)
    ensures Exchanges(Call(s, c, x).acts) <==> Completes(s, c, x.now)
    ensures Completes(s, c, x.now) ==> Answers(s, Call(s, c, x), true)
  {
    hide Iterate;
    hide Lapses;
    hide FollowedUp;
    hide BothCame;
    hide Minus;
    var t := if s.enabled then s else s.(state := NotEnabled);
    if Away(t, c, x.now) {
      AwayLoop(t, c, x);
    } else if Recent(t, c, x.now) {
      if t.state == WaitingForRespFollowUp { FollowUpLoop(t, c, x); }
      else if t.state == WaitingForResp { RespLoop(t, c, x); }
      else { SentLoop(t, c, x); }
    } else {
      if t.state == Send || t.state == InitialSend {
        SentPassed(t, c, x);
        LoopStep(t, c, x);
        t := Iterate(t, c, x).s;
      }
      OverdueLoop(t, c, x);
      LapsesWithout(t, c, x, Loop(t, c, x));
    }
  }

  // ------------------------------------------------------------------ over every order of events

  /** A request that was sent and is waited for. */
  predicate InFlight(s: Req) {
    match s.state
    case Send => s.lastState == Send
    case InitialSend => s.lastState == InitialSend
    case WaitingForResp => true
    case WaitingForRespFollowUp => true
    case _ => false
  }

  /** What a pass, a call or an event does to the request waited for. */
  ghost predicate Converses(s: Req, c: Config, now: uint64, r: Passed) {
    if r.ends then
      && !r.s.rcvdResp && !r.s.rcvdFup && (r.s.state == Send || r.s.state == InitialSend)
      && (r.s.lastState == r.s.state ==> r.s.timer == now)
    else
      && SameRequest(s, r.s) && (InFlight(r.s) ==> InFlight(s))
      && (r.s.state == WaitingForRespFollowUp ==>
            s.state == WaitingForRespFollowUp || (s.rcvdResp && GoodResp(c, s.sentId, s.resp.value)))
  }

  ghost predicate Proceeds(s: Req, c: Config, now: uint64, r: Passed) {
    Converses(s, c, now, r) && r.s.state != Reaction && (r.ends || Done(r.s) ==> Rest(r.s))
  }

  lemma StartConverses(s: Req, c: Config, x: Ambient)
    requires s.state == Init || s.state == NotEnabled
    ensures Proceeds(s, c, x.now, Iterate(s, c, x))
  {}

  lemma AttemptPassed(s: Req, c: Config, x: Ambient)
    requires (s.state == InitialSend || s.state == Send) && s.lastState != s.state
    ensures var t := s.(lastState := s.state);
            Iterate(s, c, x) == Passed(if s.state == Send then SendProc(t, x) else InitialSendProc(t, x), true,
                                       if s.state == Send || x.outcome.Failed? then [] else [A.Started])
  {
    hide InitialSendCondition;
    hide SendCondition;
    hide InitialSendProc;
    hide SendProc;
  }

  lemma AttemptConverses(s: Req, c: Config, x: Ambient)
    requires (s.state == InitialSend || s.state == Send) && s.lastState != s.state
    ensures Proceeds(s, c, x.now, Iterate(s, c, x))
  {
    AttemptPassed(s, c, x);
    hide Iterate;
    hide Minus;
  }

  lemma InitialSendConverses(s: Req, c: Config, x: Ambient)
    requires s.state == s.lastState == InitialSend
    ensures Proceeds(s, c, x.now, Iterate(s, c, x))
  {
    hide Minus;
    hide InitialSendProc;
  }

  lemma SendPassed(s: Req, c: Config, x: Ambient)
    requires s.state == s.lastState == Send
    ensures Iterate(s, c, x) == Passed(SendCondition(s, c, x.now), false, [])
  {
    hide SendCondition;
    hide SendProc;
    assert s.(lastState := s.state) == s;
  }

  lemma SendMoves(s: Req, c: Config, now: uint64)
    requires s.state == s.lastState == Send
    ensures var t := SendCondition(s, c, now);
            && SameRequest(s, t)
            && ((t.state == WaitingForResp && t.lastState == Send) || (t.state == Send && t.lastState == Reaction) || t == s)
  {
    hide Minus;
  }

  lemma SendConverses(s: Req, c: Config, x: Ambient)
    requires s.state == s.lastState == Send
    ensures Proceeds(s, c, x.now, Iterate(s, c, x))
  {
    SendPassed(s, c, x);
    SendMoves(s, c, x.now);
    hide Iterate;
    hide Minus;
    hide SendCondition;
    hide GoodResp;
    hide SameRequest;
  }

  lemma RespConverses(s: Req, c: Config, x: Ambient)
    requires s.state == WaitingForResp
    ensures Proceeds(s, c, x.now, Iterate(s, c, x))
  {
    hide Minus;
  }

  lemma FollowUpConverses(s: Req, c: Config, x: Ambient)
    requires s.state == WaitingForRespFollowUp
    ensures Proceeds(s, c, x.now, Iterate(s, c, x))
  {
    hide Minus;
  }

  lemma ResetConverses(s: Req, c: Config, x: Ambient)
    requires s.state == Reset
    ensures Proceeds(s, c, x.now, Iterate(s, c, x))
  {
    hide Minus;
    hide ResetActs;
    hide A.AfterReset;
  }

  lemma TimerPassed(s: Req, c: Config, x: Ambient)
    requires s.state == WaitingForIntervalTimer
    ensures Iterate(s, c, x) == IntervalTimerPass(s.(lastState := s.state), s.lastState != s.state, c, x)
  {
    hide IntervalTimerPass;
  }

  lemma TimerConverses(s: Req, c: Config, x: Ambient)
    requires s.state == WaitingForIntervalTimer
    ensures Proceeds(s, c, x.now, Iterate(s, c, x))
  {
    TimerPassed(s, c, x);
    hide Iterate;
    hide Minus;
    hide A.AfterExchange;
    hide ExchangeAct;
    hide RatioNow;
    hide DelayNow;
    hide Measures;
    hide LeadsOn;
  }

  lemma PassConverses(s: Req, c: Config, x: Ambient)
    requires s.state != Reaction
    ensures Proceeds(s, c, x.now, Iterate(s, c, x))
  {
    hide Iterate;
    hide Proceeds;
    if s.state == WaitingForResp { RespConverses(s, c, x); }
    else if s.state == WaitingForRespFollowUp { FollowUpConverses(s, c, x); }
    else if s.state == Reset { ResetConverses(s, c, x); }
    else if s.state == WaitingForIntervalTimer { TimerConverses(s, c, x); }
    else if s.state == Init || s.state == NotEnabled { StartConverses(s, c, x); }
    else if s.lastState != s.state { AttemptConverses(s, c, x); }
    else if s.state == InitialSend { InitialSendConverses(s, c, x); }
    else { SendConverses(s, c, x); }
  }

  lemma {:induction false} LoopConverses(s: Req, c: Config, x: Ambient)
    requires s.state != Reaction
    ensures Converses(s, c, x.now, Loop(s, c, x)) && Rest(Loop(s, c, x).s)
    decreases Rank(s.state, Done(s))
  {
    PassConverses(s, c, x);
    hide Iterate;
    LoopStep(s, c, x);
    var r := Iterate(s, c, x);
    if !r.ends && !Done(r.s) { LoopConverses(r.s, c, x); }
  }

  lemma CallConverses(s: Req, c: Config, x: Ambient)
    requires Rest(s)
    ensures Converses(s, c, x.now, Call(s, c, x)) && Rest(Call(s, c, x).s)
  {
    LoopConverses(if s.enabled then s else s.(state := NotEnabled), c, x);
  }

  /** Event `k` attempts a request. */
  predicate RequestAt(c: Config, evs: seq<Event>, k: nat)
    requires k < |evs|
  {
    Step(After(c, evs, k), c, evs[k]).ends
  }

  /** The event that attempted the last request among the first `n`, or -1. */
  function LastRequest(c: Config, evs: seq<Event>, n: nat): (r: int)
    requires n <= |evs|
    ensures -1 <= r < n
  {
    if n == 0 then -1 else if RequestAt(c, evs, n - 1) then n - 1 else LastRequest(c, evs, n - 1)
  }

  lemma {:induction false} LastRequestIs(c: Config, evs: seq<Event>, n: nat)
    requires n <= |evs|
    ensures var r := LastRequest(c, evs, n);
            (r >= 0 ==> RequestAt(c, evs, r)) && forall k :: r < k < n ==> !RequestAt(c, evs, k)
  {
    hide RequestAt;
    if n > 0 { LastRequestIs(c, evs, n - 1); }
  }

  function TimeOf(ev: Event): uint64 {
    match ev
    case Timeout(x) => x.now
    case TxTimestamp(_, _, x) => x.now
    case RespArrives(_, _, x) => x.now
    case FupArrives(_, x) => x.now
    case _ => 0
  }

  /** A message that arrived after event `r` and before event `n`. */
  predicate RespCame(evs: seq<Event>, r: int, n: nat, m: Resp) {
    exists i :: r < i < n <= |evs| && 0 <= i && evs[i].RespArrives? && evs[i].resp == m
  }

  predicate FupCame(evs: seq<Event>, r: int, n: nat, m: RespFup) {
    exists i :: r < i < n <= |evs| && 0 <= i && evs[i].FupArrives? && evs[i].fup == m
  }

  predicate GoodRespCame(c: Config, id: uint16, evs: seq<Event>, r: int, n: nat) {
    exists i :: r < i < n <= |evs| && 0 <= i && evs[i].RespArrives? && GoodResp(c, id, evs[i].resp)
  }

  /** What a requester holds came after its last request; and that is the request it waits for. */
  ghost predicate Holds(c: Config, evs: seq<Event>, n: nat, r: int, s: Req) {
    && (s.rcvdResp ==> RespCame(evs, r, n, s.resp.value))
    && (s.rcvdFup ==> FupCame(evs, r, n, s.fup.value))
    && (s.state == WaitingForRespFollowUp ==> RespCame(evs, r, n, s.resp.value) && GoodRespCame(c, s.sentId, evs, r, n))
    && (InFlight(s) ==> 0 <= r < n <= |evs| && s.timer == TimeOf(evs[r]) && s.sentId == After(c, evs, r + 1).sentId)
  }

  lemma HoldsLater(c: Config, evs: seq<Event>, n: nat, r: int, s: Req)
    requires Holds(c, evs, n, r, s) && n < |evs|
    ensures Holds(c, evs, n + 1, r, s)
  {
    hide GoodResp;
    hide After;
    if s.rcvdResp || s.state == WaitingForRespFollowUp {
      var i :| r < i < n && 0 <= i && evs[i].RespArrives? && evs[i].resp == s.resp.value;
      assert RespCame(evs, r, n + 1, s.resp.value);
    }
    if s.rcvdFup {
      var i :| r < i < n && 0 <= i && evs[i].FupArrives? && evs[i].fup == s.fup.value;
      assert FupCame(evs, r, n + 1, s.fup.value);
    }
    if s.state == WaitingForRespFollowUp {
      var i :| r < i < n && 0 <= i && evs[i].RespArrives? && GoodResp(c, s.sentId, evs[i].resp);
      assert GoodRespCame(c, s.sentId, evs, r, n + 1);
    }
  }

  /** A message is noted. */
  lemma HoldsNoted(c: Config, evs: seq<Event>, n: nat, r: int, s: Req)
    requires n < |evs| && r < n && Holds(c, evs, n, r, s)
    ensures Holds(c, evs, n + 1, r, Noted(s, evs[n]))
  {
    hide GoodResp;
    hide After;
    HoldsLater(c, evs, n, r, s);
    var t := Noted(s, evs[n]);
    if evs[n].RespArrives? { assert RespCame(evs, r, n + 1, t.resp.value); }
    if evs[n].FupArrives? { assert FupCame(evs, r, n + 1, t.fup.value); }
  }

  /** A call keeps that, or makes the next request. */
  lemma HoldsCalled(c: Config, evs: seq<Event>, n: nat, r: int, s: Req, x: Ambient)
    requires n < |evs| && TimeOf(evs[n]) == x.now && Rest(s) && Holds(c, evs, n + 1, r, s)
    ensures var q := Call(s, c, x);
            if q.ends then After(c, evs, n + 1).sentId == q.s.sentId ==> Holds(c, evs, n + 1, n, q.s)
            else Holds(c, evs, n + 1, r, q.s)
  {
    hide Call;
    hide After;
    CallConverses(s, c, x);
    var q := Call(s, c, x);
    if !q.ends && q.s.state == WaitingForRespFollowUp && s.state != WaitingForRespFollowUp {
      var i :| r < i < n + 1 && 0 <= i && evs[i].RespArrives? && evs[i].resp == s.resp.value;
      assert GoodRespCame(c, s.sentId, evs, r, n + 1);
    }
  }

  /** Only what bears on the request matters. */
  lemma SameHolds(c: Config, evs: seq<Event>, n: nat, r: int, s: Req, t: Req)
    requires Holds(c, evs, n, r, s)
    requires t == s.(enabled := t.enabled, computeRatio := t.computeRatio, computeDelay := t.computeDelay,
                     counters := t.counters, m := t.m)
    ensures Holds(c, evs, n, r, t)
  {}

  /** An event that calls the machine in state `s`. */
  lemma CalledHolds(c: Config, evs: seq<Event>, n: nat, s: Req, x: Ambient)
    requires n < |evs| && TimeOf(evs[n]) == x.now && Rest(s)
    requires Holds(c, evs, n + 1, LastRequest(c, evs, n), s)
    requires var q, t := Call(s, c, x), After(c, evs, n + 1);
             t == q.s.(m := t.m) && (q.ends <==> RequestAt(c, evs, n))
    ensures Rest(After(c, evs, n + 1)) && Holds(c, evs, n + 1, LastRequest(c, evs, n + 1), After(c, evs, n + 1))
  {
    hide Call;
    hide After;
    hide Holds;
    hide RequestAt;
    HoldsCalled(c, evs, n, LastRequest(c, evs, n), s, x);
    CallConverses(s, c, x);
    SameHolds(c, evs, n + 1, LastRequest(c, evs, n + 1), Call(s, c, x).s, After(c, evs, n + 1));
  }

  /** Whether an event calls the machine: a timestamp only of the request just sent. */
  predicate Calls(s: Req, ev: Event) {
    match ev
    case Timeout(_) => true
    case TxTimestamp(_, id, _) => (s.state == Send || s.state == InitialSend) && id == s.sequenceId
    case RespArrives(_, _, _) => true
    case FupArrives(_, _) => true
    case _ => false
  }

  lemma StepCalls(s: Req, c: Config, ev: Event)
    requires Calls(s, ev)
    ensures ev.Timeout? || ev.TxTimestamp? || ev.RespArrives? || ev.FupArrives?
    ensures var q, r := Call(Noted(s, ev), c, ev.x), Step(s, c, ev);
            r.ends == q.ends && r.acts == q.acts && r.s == q.s.(m := r.s.m) && TimeOf(ev) == ev.x.now
  {
    hide Call;
  }

  lemma StepRests(s: Req, c: Config, ev: Event)
    requires !Calls(s, ev)
    ensures var r := Step(s, c, ev);
            && !r.ends && !Exchanges(r.acts)
            && r.s == s.(enabled := r.s.enabled, computeRatio := r.s.computeRatio, computeDelay := r.s.computeDelay,
                         counters := r.s.counters)
  {
    hide Call;
  }

  lemma StepHolds(c: Config, evs: seq<Event>, n: nat)
    requires n < |evs| && Rest(After(c, evs, n)) && Holds(c, evs, n, LastRequest(c, evs, n), After(c, evs, n))
    ensures Rest(After(c, evs, n + 1)) && Holds(c, evs, n + 1, LastRequest(c, evs, n + 1), After(c, evs, n + 1))
  {
    hide Step;
    hide Holds;
    hide Calls;
    var s, r, ev := After(c, evs, n), LastRequest(c, evs, n), evs[n];
    if Calls(s, ev) {
      HoldsNoted(c, evs, n, r, s);
      StepCalls(s, c, ev);
      assert Rest(Noted(s, ev));
      hide Noted;
      CalledHolds(c, evs, n, Noted(s, ev), ev.x);
    } else {
      HoldsLater(c, evs, n, r, s);
      StepRests(s, c, ev);
      SameHolds(c, evs, n + 1, r, s, After(c, evs, n + 1));
    }
  }

  /** Invariant of every run. */
  lemma {:induction false} AlwaysHolds(c: Config, evs: seq<Event>, n: nat)
    requires n <= |evs|
    ensures Rest(After(c, evs, n)) && Holds(c, evs, n, LastRequest(c, evs, n), After(c, evs, n))
  {
    hide Step;
    if n > 0 {
      AlwaysHolds(c, evs, n - 1);
      StepHolds(c, evs, n - 1);
    }
  }

  /** An event makes an exchange exactly when it calls the machine and that finds the request answered. */
  lemma StepExchangesIff(s: Req, c: Config, ev: Event)
    requires Rest(s)
    ensures Exchanges(Step(s, c, ev).acts) <==> Calls(s, ev) && Completes(Noted(s, ev), c, TimeOf(ev))
  {
    hide Step;
    hide Calls;
    hide Completes;
    if Calls(s, ev) {
      StepCalls(s, c, ev);
      assert Rest(Noted(s, ev));
      hide Noted;
      CallExchangesIff(Noted(s, ev), c, ev.x);
    } else {
      StepRests(s, c, ev);
    }
  }

  /** What it takes to complete has come since the last request. */
  lemma CompletesOfWhatCame(c: Config, evs: seq<Event>, n: nat, r: int, s: Req, now: uint64)
    requires Holds(c, evs, n, r, s) && Completes(s, c, now)
    ensures 0 <= r < n <= |evs| && Minus(now, TimeOf(evs[r])) < c.interval
    ensures var id := After(c, evs, r + 1).sentId;
            GoodRespCame(c, id, evs, r, n) && exists m, f :: RespCame(evs, r, n, m) && FupCame(evs, r, n, f) && GoodFup(c, id, m, f)
  {
    hide Minus;
    hide GoodResp;
    hide GoodFup;
    hide After;
    assert InFlight(s);
    if s.state != WaitingForRespFollowUp {
      var i :| r < i < n && 0 <= i && evs[i].RespArrives? && evs[i].resp == s.resp.value;
      assert GoodRespCame(c, s.sentId, evs, r, n);
    }
    assert RespCame(evs, r, n, s.resp.value) && FupCame(evs, r, n, s.fup.value);
  }

  /** Over every order of events, an exchange is made of answers to the last request: less than an interval
      after it, a response to it or an earlier one and a follow-up of its number have come since, both from
      another system; and the last response since is to this port or from where the follow-up is. */
  lemma ExchangeIsAnswer(c: Config, evs: seq<Event>, k: nat)
    requires k < |evs| && Exchanges(Step(After(c, evs, k), c, evs[k]).acts)
    ensures var r := LastRequest(c, evs, k);
            && 0 <= r && Minus(TimeOf(evs[k]), TimeOf(evs[r])) < c.interval
            && var id := After(c, evs, r + 1).sentId;
               && GoodRespCame(c, id, evs, r, k + 1)
               && exists m, f :: RespCame(evs, r, k + 1, m) && FupCame(evs, r, k + 1, f) && GoodFup(c, id, m, f)
  {
    hide Step;
    hide Holds;
    hide Completes;
    hide Calls;
    hide After;
    AlwaysHolds(c, evs, k);
    var s, r := After(c, evs, k), LastRequest(c, evs, k);
    StepExchangesIff(s, c, evs[k]);
    HoldsNoted(c, evs, k, r, s);
    CompletesOfWhatCame(c, evs, k + 1, r, Noted(s, evs[k]), TimeOf(evs[k]));
  }

  // ------------------------------------------------------------------ a neighbour that falls silent

  /** What happened for asCapable in a run from `s`. */
  function ActsOf(s: Req, c: Config, evs: seq<Event>): seq<A.Act> {
    if evs == [] then []
    else ActsOf(s, c, evs[..|evs| - 1]) + Step(Run(s, c, evs[..|evs| - 1]), c, evs[|evs| - 1]).acts
  }

  lemma {:induction false} ActsMore(s: Req, c: Config, f: seq<Event>, g: seq<Event>)
    ensures ActsOf(s, c, f + g) == ActsOf(s, c, f) + ActsOf(Run(s, c, f), c, g)
  {
    hide Step;
    if g == [] {
      assert f + g == f;
    } else {
      ActsMore(s, c, f, g[..|g| - 1]);
      RunMore(s, c, f, g[..|g| - 1]);
      assert (f + g)[..|f + g| - 1] == f + g[..|g| - 1];
    }
  }

  lemma {:induction false} ActsAccount(s: Req, c: Config, evs: seq<Event>)
    ensures Run(s, c, evs).counters == A.Applied(c.limits, s.counters, ActsOf(s, c, evs))
  {
    hide Step;
    if evs != [] {
      var f := evs[..|evs| - 1];
      ActsAccount(s, c, f);
      StepAccounted(Run(s, c, f), c, evs[|evs| - 1]);
      A.AppliedMore(c.limits, s.counters, ActsOf(s, c, f), Step(Run(s, c, f), c, evs[|evs| - 1]).acts);
    }
  }

  /** Without exchanges a port stays capable only while the resets are few enough. */
  lemma {:induction false} ResetsEnd(l: A.Limits, c: A.Counters, acts: seq<A.Act>)
    requires !Exchanges(acts)
    ensures var d := A.Applied(l, c, acts);
            d.asCapable ==> c.asCapable && d.lost == c.lost + CountResets(acts) &&
                            (CountResets(acts) > 0 ==> d.lost <= l.allowedLostResponses)
  {
    if acts != [] {
      var f, a := acts[..|acts| - 1], acts[|acts| - 1];
      assert forall i :: 0 <= i < |f| ==> f[i] == acts[i];
      assert a == acts[|acts| - 1] && !a.Exchange?;
      ResetsEnd(l, c, f);
    }
  }

  /** No follow-up, no exchange. */
  lemma {:induction false} NoneWithoutFollowUp(s: Req, c: Config, evs: seq<Event>)
    requires Rest(s) && !s.rcvdFup && forall ev :: ev in evs ==> !ev.FupArrives?
    ensures var t := Run(s, c, evs); Rest(t) && !t.rcvdFup && !Exchanges(ActsOf(s, c, evs))
  {
    hide Step;
    if evs != [] {
      var f, ev := evs[..|evs| - 1], evs[|evs| - 1];
      NoneWithoutFollowUp(s, c, f);
      assert ev in evs;
      SilentStep(Run(s, c, f), c, ev);
    }
  }

  lemma SilentStep(s: Req, c: Config, ev: Event)
    requires Rest(s) && !s.rcvdFup && !ev.FupArrives?
    ensures var r := Step(s, c, ev); Rest(r.s) && !r.s.rcvdFup && !Exchanges(r.acts)
  {
    hide Step;
    StepExchangesIff(s, c, ev);
    if Calls(s, ev) {
      StepCalls(s, c, ev);
      assert Rest(Noted(s, ev));
      CallConverses(Noted(s, ev), c, ev.x);
    } else {
      StepRests(s, c, ev);
    }
  }

  /** Once follow-ups fail to come, whatever else happens and in whatever order: after allowedLostResponses + 1
      further resets the port is not capable. */
  lemma SilenceEndsCapability(s: Req, c: Config, evs: seq<Event>)
    requires Rest(s) && !s.rcvdFup && forall ev :: ev in evs ==> !ev.FupArrives?
    requires CountResets(ActsOf(s, c, evs)) > c.limits.allowedLostResponses
    ensures !Run(s, c, evs).counters.asCapable
  {
    NoneWithoutFollowUp(s, c, evs);
    ActsAccount(s, c, evs);
    ResetsEnd(c.limits, s.counters, ActsOf(s, c, evs));
  }

  /** A request that goes unanswered: its timestamp, the first call an interval after it, and polls before each. */
  datatype Silence = Silence(polls1: seq<Ambient>, ts: uint64, stamping: Ambient, polls2: seq<Ambient>, lapse: Ambient)

  /** The request was sent, and the machine waits for its timestamp. */
  predicate Sent(s: Req) { Waiting(s) && s.state == Send }

  predicate GoesUnanswered(s: Req, c: Config, u: Silence) {
    && (forall i :: 0 <= i < |u.polls1| ==> Minus(u.polls1[i].now, s.timer) < c.txtsLost)
    && Minus(u.stamping.now, s.timer) < c.interval
    && (forall i :: 0 <= i < |u.polls2| ==> Minus(u.polls2[i].now, s.timer) < c.interval)
    && Minus(u.lapse.now, s.timer) >= c.interval && !u.lapse.outcome.Failed?
  }

  /** The port does not keep silent after double answers. */
  predicate KeepsAsking(s: Req, c: Config) { c.limits.conformToAvnu ==> s.counters.multi < c.limits.allowedLostResponses }

  function EventsOfSilence(s: Req, u: Silence): seq<Event> {
    Polls(u.polls1) + [TxTimestamp(u.ts, s.sequenceId, u.stamping)] + (Polls(u.polls2) + [Timeout(u.lapse)])
  }

  function StampedRequest(s: Req, u: Silence): Req
    requires Sent(s)
  {
    s.(m := s.m.(t1 := u.ts), state := WaitingForResp, lastState := WaitingForResp)
  }

  lemma StampStep(s: Req, c: Config, u: Silence)
    requires Sent(s) && GoesUnanswered(s, c, u)
    ensures Step(s, c, TxTimestamp(u.ts, s.sequenceId, u.stamping)).s == StampedRequest(s, u)
  {
    hide Minus;
    var n := s.(m := s.m.(t1 := u.ts), rcvdTimestamp := true);
    var t := Iterate(n, c, u.stamping).s;
    assert t == n.(state := WaitingForResp);
    assert Iterate(t, c, u.stamping).s == StampedRequest(s, u);
    TwoPasses(n, c, u.stamping);
  }

  /** It is counted as one lost response, and the next request is sent. */
  lemma SilenceLapses(s: Req, c: Config, u: Silence)
    requires Sent(s) && GoesUnanswered(s, c, u) && KeepsAsking(s, c)
    ensures var t := Run(s, c, EventsOfSilence(s, u));
            && Sent(t) && KeepsAsking(t, c) && t.timer == u.lapse.now && t.sequenceId == Next16(s.sequenceId)
            && t.counters == A.AfterReset(c.limits, s.counters)
  {
    hide Step;
    hide Minus;
    PolledStep(s, c, u.polls1, TxTimestamp(u.ts, s.sequenceId, u.stamping));
    StampStep(s, c, u);
    var t := StampedRequest(s, u);
    PolledStep(t, c, u.polls2, Timeout(u.lapse));
    RunMore(s, c, Polls(u.polls1) + [TxTimestamp(u.ts, s.sequenceId, u.stamping)], Polls(u.polls2) + [Timeout(u.lapse)]);
    OverdueLapses(t, c, u.lapse);
    StepCalls(t, c, Timeout(u.lapse));
  }

  /** The state after the first `k` requests that go unanswered. */
  function SilentUpTo(s: Req, c: Config, us: seq<Silence>, k: nat): Req
    requires k <= |us|
  {
    if k == 0 then s
    else
      var t := SilentUpTo(s, c, us, k - 1);
      Run(t, c, EventsOfSilence(t, us[k - 1]))
  }

  /** A neighbour that falls silent: each request counts as one lost response, and the port stays capable
      exactly until there are more of them than allowedLostResponses. */
  lemma {:induction false} SilentNeighbour(s: Req, c: Config, us: seq<Silence>, k: nat)
    requires k <= |us| && Sent(s) && KeepsAsking(s, c)
    requires forall i :: 0 <= i < k ==> GoesUnanswered(SilentUpTo(s, c, us, i), c, us[i])
    ensures var t := SilentUpTo(s, c, us, k);
            && Sent(t) && KeepsAsking(t, c)
            && (t.counters.asCapable <==> s.counters.asCapable && (k > 0 ==> s.counters.lost + k <= c.limits.allowedLostResponses))
            && (t.counters.asCapable ==> t.counters.lost == s.counters.lost + k)
  {
    hide Run;
    hide EventsOfSilence;
    hide GoesUnanswered;
    hide Sent;
    if k > 0 {
      SilentNeighbour(s, c, us, k - 1);
      SilenceLapses(SilentUpTo(s, c, us, k - 1), c, us[k - 1]);
    }
  }
}

/** What every call of the peer delay requester does with what it finds, field by field. */
module PeerDelayCalls {
  import opened Words
  import opened Priority
  import opened BmcsState
  import opened PeerDelay
  import opened PeerDelayRequester
  import opened PeerDelayRuns
  import opened PeerDelayAnswers
  import A = AsCapable

  /** The machine waits, and the port is enabled. */
  predicate Rests(s: Req) { s.enabled && s.lastState == s.state }

  predicate OtherDomain(c: Config, sdoId: nat) { !c.cmlds && sdoId != 1 }

  // ------------------------------------------------------------------ a reset

  /** The time for which a port keeps silent after double answers, five minutes, is not over. */
  predicate Unhurried(s: Req, c: Config, now: uint64) { c.limits.conformToAvnu ==> Minus(now, s.timer) < 300_000_000_000 }

  /** A reset: one lost response more while there is one to lose; with none left, or after too many double
      answers, a capable port ceases to be, and its ratio is forgotten. */
  ghost predicate WasReset(s: Req, c: Config, r: Req) {
    var k, l := s.counters, c.limits;
    var spent := k.lost >= l.allowedLostResponses;
    var ceases := l.conformToAvnu && k.multi > 0 && k.multi >= l.allowedLostResponses && (k.asCapable || !spent);
    var ends := ceases || (spent && k.asCapable);
    && r == s.(state := Reset, lastState := Reset, rcvdResp := false, counters := r.counters,
               m := s.m.(measuring := r.m.measuring, ratio := r.m.ratio))
    && r.counters == A.Counters(k.asCapable && !ends, if spent then k.lost else k.lost + 1, k.multi, k.faults,
                                k.ratioValid && !ends)
    && r.m.ratio == (if ends then 1.0 else s.m.ratio)
    && r.m.measuring == (s.m.measuring && !spent && !ceases)
  }

  lemma ResetIs(s: Req, c: Config)
    ensures WasReset(s, c, ResetProc(s.(state := Reset, lastState := Reset), c.limits))
  {}

  lemma ResetPassIs(s: Req, c: Config, x: Ambient)
    requires s.state == Reset && s.lastState != Reset && Recent(s, c, x.now)
    requires Unhurried(s, c, x.now)
    ensures Iterate(s, c, x) == Passed(ResetProc(s.(state := Reset, lastState := Reset), c.limits), false, [A.ResetEntered])
  {
    hide A.AfterReset;
    hide Minus;
  }

  /** Less than an interval after the request, a reset waits. */
  lemma ResetWaits(s: Req, c: Config, x: Ambient)
    requires s.state == Reset && s.lastState != Reset && Recent(s, c, x.now)
    requires Unhurried(s, c, x.now)
    ensures var r := Loop(s, c, x); WasReset(s, c, r.s) && !r.ends && r.acts == [A.ResetEntered]
  {
    ResetPassIs(s, c, x);
    ResetIs(s, c);
    hide Iterate;
    hide ResetProc;
    hide Minus;
    LoopStep(s, c, x);
  }

  lemma ResetFromSame(s: Req, t: Req, c: Config, r: Req)
    requires WasReset(s, c, r) && s == t.(state := Reset)
    ensures WasReset(t, c, r)
  {}

  // ------------------------------------------------------------------ responses

  lemma RespPassIs(s: Req, c: Config, x: Ambient)
    requires Rests(s) && s.state == WaitingForResp && Recent(s, c, x.now)
    ensures var r := Iterate(s, c, x);
            !r.ends && r.acts == [] &&
            if !s.rcvdResp then r.s == s.(rcvdFup := false)
            else
              var p := s.resp.value;
              var foreign := p.source.clockIdentity == c.thisClock || p.requester != PortIdentity(c.thisClock, c.thisPort);
              if !foreign && OtherDomain(c, p.sdoId) then r.s == s
              else if foreign || p.sequenceId > s.sentId then r.s == s.(state := Reset)
              else r.s == s.(state := WaitingForRespFollowUp)
  {
    hide Minus;
  }

  lemma FollowUpPassIs(s: Req, c: Config, x: Ambient)
    requires s.enabled && s.state == WaitingForRespFollowUp && Recent(s, c, x.now)
    ensures var r, u := Iterate(s, c, x), if s.lastState != s.state then s.(rcvdResp := false, lastState := s.state) else s;
            && !r.ends
            && if u.rcvdResp && u.resp.value.sequenceId == u.sentId then
                 r.acts == [A.AnsweredTwice] && r.s == u.(counters := u.counters.(multi := u.counters.multi + 1), state := Reset)
               else
                 r.acts == [] &&
                 if u.rcvdFup && !OtherDomain(c, u.fup.value.sdoId) && u.fup.value.source.clockIdentity == c.thisClock
                 then r.s == u.(state := Reset)
                 else r.s == u.(state := if FollowedUp(u, c) then WaitingForIntervalTimer else u.state)
  {
    hide Minus;
  }

  /** What a call makes of a response: a reset if it is not from another system to this port or has a later
      number; nothing if it is of another domain; and otherwise it waits for the follow-up. */
  lemma RespIsJudged(s: Req, c: Config, x: Ambient)
    requires Rests(s) && s.state == WaitingForResp && Recent(s, c, x.now) && Unhurried(s, c, x.now)
    ensures var r := Call(s, c, x);
            if !s.rcvdResp then r == Passed(s.(rcvdFup := false), false, [])
            else
              var p := s.resp.value;
              var foreign := p.source.clockIdentity == c.thisClock || p.requester != PortIdentity(c.thisClock, c.thisPort);
              if !foreign && OtherDomain(c, p.sdoId) then r == Passed(s, false, [])
              else if foreign || p.sequenceId > s.sentId then WasReset(s, c, r.s) && !r.ends && r.acts == [A.ResetEntered]
              else
                !s.rcvdFup ==>
                  r == Passed(s.(rcvdResp := false, state := WaitingForRespFollowUp, lastState := WaitingForRespFollowUp),
                              false, [])
  {
    RespPassIs(s, c, x);
    hide Iterate;
    hide Minus;
    hide WasReset;
    hide FollowedUp;
    LoopStep(s, c, x);
    var t := Iterate(s, c, x).s;
    if t.state == Reset {
      ResetWaits(t, c, x);
      ResetFromSame(t, s, c, Loop(t, c, x).s);
    } else if t.state == WaitingForRespFollowUp && !s.rcvdFup {
      FollowUpPassIs(t, c, x);
      LoopStep(t, c, x);
    }
  }

  /** What a call makes of a requester that waits for a follow-up: a reset for a second response to this very
      request, which is counted, and for a follow-up of its own; an exchange for the right one; and otherwise
      it waits on. */
  lemma FollowUpIsJudged(s: Req, c: Config, x: Ambient)
    requires Rests(s) && s.state == WaitingForRespFollowUp && Recent(s, c, x.now) && Unhurried(s, c, x.now)
    ensures var r := Call(s, c, x);
            if s.rcvdResp && s.resp.value.sequenceId == s.sentId then
              && WasReset(s.(counters := s.counters.(multi := s.counters.multi + 1)), c, r.s)
              && !r.ends && r.acts == [A.AnsweredTwice, A.ResetEntered]
            else if s.rcvdFup && !OtherDomain(c, s.fup.value.sdoId) && s.fup.value.source.clockIdentity == c.thisClock
            then WasReset(s, c, r.s) && !r.ends && r.acts == [A.ResetEntered]
            else if FollowedUp(s, c) then Exchanges(r.acts)
            else r == Passed(s, false, [])
  {
    FollowUpPassIs(s, c, x);
    hide Iterate;
    hide Minus;
    hide FollowedUp;
    hide WasReset;
    hide Exchanges;
    LoopStep(s, c, x);
    var t := Iterate(s, c, x).s;
    if t.state == Reset {
      FollowUpResets(s, t, c, x);
    } else if FollowedUp(s, c) {
      FollowUpLoop(s, c, x);
    }
  }

  lemma FollowUpResets(s: Req, t: Req, c: Config, x: Ambient)
    requires t == s.(counters := t.counters, state := Reset) && s.state == s.lastState == WaitingForRespFollowUp
    requires Recent(s, c, x.now) && Unhurried(s, c, x.now)
    ensures var r := Loop(t, c, x);
            WasReset(s.(counters := t.counters), c, r.s) && !r.ends && r.acts == [A.ResetEntered]
  {
    hide WasReset;
    hide Minus;
    ResetWaits(t, c, x);
    ResetFromSame(t, s.(counters := t.counters), c, Loop(t, c, x).s);
  }

  // ------------------------------------------------------------------ an exchange

  /** What an exchange leaves, whatever is to be computed: the ratio averaged with the one measured since the
      exchange before, or with one when that was not an interval ago; the delay computed with it; and the
      verdict, which keeps measuring while the exchange is good or a fault that is tolerated. */
  ghost predicate Exchanged(s: Req, c: Config, r: Req, act: A.Act)
    requires s.resp.Some? && act.Exchange?
  {
    var m, dt1, dt2 := s.m, Minus(s.m.t1, s.m.prevT1), Minus(s.m.t2, s.m.prevT2);
    var measured := Measurable(c, dt1) && Measurable(c, dt2);
    var known, self := s.counters.ratioValid || !s.computeRatio || measured, act.fromSelf;
    && r == s.(rcvdFup := false, counters := r.counters, m := r.m, state := WaitingForIntervalTimer,
               lastState := WaitingForIntervalTimer)
    && r.m.ratio == (if s.computeRatio then (m.ratio + if measured then dt2 as real / dt1 as real else 1.0) / 2.0 else m.ratio)
    && r.m.delay == (if s.computeDelay then PropTime(r.m.ratio, m.t1, m.t2, m.t3, m.t4) else m.delay)
    && r.m == m.(ratio := r.m.ratio, delay := r.m.delay, measuring := r.m.measuring,
                 prevT1 := if s.computeRatio then m.t1 else m.prevT1, prevT2 := if s.computeRatio then m.t2 else m.prevT2)
    && act == A.Exchange(r.m.delay, !s.computeRatio || measured, s.resp.value.source.clockIdentity == c.thisClock)
    && r.counters == A.Apply(c.limits, s.counters, act)
    && (r.m.measuring <==>
          || (!self && known && c.limits.minDelay <= act.delay <= c.limits.maxDelay)
          || ((self || (known && act.delay < c.limits.minDelay)) && s.counters.faults <= c.limits.allowedFaults))
  }

  lemma ExchangeProcIs(s: Req, c: Config)
    requires s.resp.Some?
    ensures Exchanged(s, c, IntervalTimerProc(s, c).(state := WaitingForIntervalTimer, lastState := WaitingForIntervalTimer),
                      ExchangeAct(s, c))
  {
    hide Minus;
    hide PropTime;
  }

  lemma ExchangeLoop(s: Req, c: Config, x: Ambient)
    requires s.state == WaitingForIntervalTimer && s.lastState != s.state && Recent(s, c, x.now)
    ensures var r := Loop(s, c, x);
            && |r.acts| == 1 && r.acts[0] == ExchangeAct(s, c)
            && r.s == IntervalTimerProc(s, c).(state := WaitingForIntervalTimer, lastState := WaitingForIntervalTimer)
  {
    hide PropTime;
    hide MeasuredRatio;
    hide Averaged;
    hide InWindow;
    hide A.AfterExchange;
    hide A.Good;
    hide A.Fault;
    LoopStep(s, c, x);
  }

  /** A follow-up that answers the request completes the exchange. */
  lemma ExchangeLeaves(s: Req, c: Config, x: Ambient)
    requires Rests(s) && s.state == WaitingForRespFollowUp && Recent(s, c, x.now) && FollowedUp(s, c)
    ensures var r := Call(s, c, x);
            !r.ends && |r.acts| == 1 && r.acts[0].Exchange? && Exchanged(s, c, r.s, r.acts[0])
  {
    FollowUpPassIs(s, c, x);
    hide Iterate;
    hide Minus;
    LoopStep(s, c, x);
    var t := Iterate(s, c, x).s;
    assert t == s.(state := WaitingForIntervalTimer);
    ExchangeLoop(t, c, x);
    TimerLoop(t, c, x);
    ExchangeProcIs(t, c);
    ExchangedSame(t, s, c, Loop(t, c, x).s, ExchangeAct(t, c));
  }

  lemma ExchangedSame(s: Req, t: Req, c: Config, r: Req, act: A.Act)
    requires act.Exchange? && s.resp.Some? && t.resp.Some? && Exchanged(s, c, r, act)
    requires s == t.(state := WaitingForIntervalTimer)
    ensures Exchanged(t, c, r, act)
  {}

  // ------------------------------------------------------------------ requests

  /** The first request after the port comes to be enabled: a random number, nothing received, the ratio one
      and nothing to measure since; and once it is sent the counters start again. */
  ghost predicate Started(s: Req, c: Config, x: Ambient, r: Passed) {
    var sent := !x.outcome.Failed?;
    && r.ends && r.acts == (if sent then [A.Started] else [])
    && r.s == s.(rcvdResp := false, rcvdFup := false, rcvdTimestamp := false, sequenceId := x.random, sentId := x.random,
                 mockTs := if x.outcome.SentWithoutTimestamp? then x.outcome.ts else s.mockTs,
                 timer := if sent then x.now else s.timer,
                 counters := if sent then A.Counters(false, 0, 0, 0, s.counters.ratioValid) else s.counters,
                 m := s.m.(ratio := 1.0, prevT1 := 0, prevT2 := 0, measuring := s.m.measuring && !sent),
                 state := InitialSend, lastState := if sent then InitialSend else Reaction)
  }

  lemma StartLoop(s: Req, c: Config, x: Ambient)
    requires s.state == InitialSend && s.lastState != InitialSend
    ensures Started(s, c, x, Loop(s, c, x))
  {
    LoopStep(s, c, x);
  }

  /** A port that is not enabled sends nothing; once it is, it starts. */
  lemma Starts(s: Req, c: Config, x: Ambient)
    requires s.lastState == s.state && (!s.enabled || s.state == NotEnabled || s.state == Init)
    ensures var r := Call(s, c, x);
            if s.enabled then Started(s, c, x, r) else r == Passed(s.(state := NotEnabled, lastState := NotEnabled), false, [])
  {
    var t: Req := if s.enabled then s else s.(state := NotEnabled);
    FirstPassIs(t, c, x);
    hide Iterate;
    hide Started;
    LoopStep(t, c, x);
    var u := Iterate(t, c, x).s;
    if s.enabled {
      if s.state == Init {
        FirstPassIs(u, c, x);
        LoopStep(u, c, x);
        u := Iterate(u, c, x).s;
      }
      StartLoop(u, c, x);
      StartedSame(u, s, c, x, Loop(u, c, x));
    }
  }

  lemma FirstPassIs(s: Req, c: Config, x: Ambient)
    requires s.state == NotEnabled || s.state == Init
    ensures Iterate(s, c, x) ==
              Passed(s.(lastState := s.state, state := if s.state == NotEnabled && s.enabled then InitialSend else NotEnabled),
                     false, [])
  {
    hide InitialSendProc;
  }

  lemma StartedSame(s: Req, t: Req, c: Config, x: Ambient, r: Passed)
    requires Started(s, c, x, r) && s == t.(state := s.state, lastState := s.lastState)
    ensures Started(t, c, x, r)
  {}

  /** Once the link is down nothing is sent, and the port is not capable; the first call after it is enabled again
      starts. What is to be computed is as configured last. */
  lemma LinkGoesDown(s: Req, c: Config, x: Ambient, y: Ambient, ratio: bool, delay: bool)
    requires s.lastState == s.state
    ensures var down := Step(s, c, LinkDown);
            var idle := Step(down.s, c, Timeout(x));
            var up := Step(Step(idle.s, c, Enable(true)).s, c, Configure(ratio, delay));
            && down.acts == [A.WentDown] && !down.s.counters.asCapable
            && !idle.ends && idle.acts == [] && idle.s.counters == down.s.counters && idle.s.state == NotEnabled
            && up.s == idle.s.(enabled := true, computeRatio := ratio, computeDelay := delay)
            && Started(up.s, c, y, Step(up.s, c, Timeout(y)))
  {
    hide Started;
    hide Call;
    var down: Req := s.(enabled := false, counters := s.counters.(asCapable := false));
    Starts(down, c, x);
    var idle := Call(down, c, x).s;
    Starts(idle.(enabled := true, computeRatio := ratio, computeDelay := delay), c, y);
  }

  /** A request that is sent again has the number it had. */
  ghost predicate SentAgain(s: Req, x: Ambient, r: Passed) {
    var sent, id := !x.outcome.Failed?, s.sequenceId;
    && r.ends && r.acts == []
    && r.s == s.(rcvdResp := false, rcvdFup := false, sentId := id,
                 sequenceId := if sent then id else Before16(id),
                 mockTs := if x.outcome.SentWithoutTimestamp? then x.outcome.ts else s.mockTs,
                 timer := if sent then x.now else s.timer, state := Send, lastState := if sent then Send else Reaction)
  }

  /** The next request has the next number. */
  ghost predicate SentNext(s: Req, x: Ambient, r: Passed) {
    var sent, id := !x.outcome.Failed?, Next16(s.sequenceId);
    && r.ends && r.acts == []
    && r.s == s.(rcvdResp := false, rcvdFup := false, sentId := id,
                 sequenceId := if sent then id else s.sequenceId,
                 mockTs := if x.outcome.SentWithoutTimestamp? then x.outcome.ts else s.mockTs,
                 timer := if sent then x.now else s.timer, state := Send, lastState := if sent then Send else Reaction)
  }

  lemma NextLoop(s: Req, c: Config, x: Ambient)
    requires s.state == Send && s.lastState != Send
    ensures SentNext(s, x, Loop(s, c, x))
  {
    LoopStep(s, c, x);
  }

  /** What a call makes of a request without a timestamp from the network: within the time allowed for that it
      waits; after it, the software clock's timestamp is taken, if there is one, or the request is sent again. */
  lemma StampIsAwaited(s: Req, c: Config, x: Ambient)
    requires Rests(s) && s.state == Send && !s.rcvdTimestamp
    ensures var r := Call(s, c, x);
            if Minus(x.now, s.timer) < c.txtsLost then r == Passed(s, false, [])
            else if s.mockTs != 0 then
              r == Loop(s.(m := s.m.(t1 := s.mockTs), mockTs := 0, state := WaitingForResp), c, x)
            else SentAgain(s, x, r)
  {
    hide Minus;
    SendPassed(s, c, x);
    hide Iterate;
    hide SentNext;
    hide SentAgain;
    LoopStep(s, c, x);
    if Minus(x.now, s.timer) >= c.txtsLost && s.mockTs == 0 {
      var t := Iterate(s, c, x).s;
      NextLoop(t, c, x);
      NextIsAgain(s, t, x, Loop(t, c, x));
    }
  }

  lemma NextIsAgain(s: Req, t: Req, x: Ambient, r: Passed)
    requires s.state == Send && t == s.(sequenceId := Before16(s.sequenceId), lastState := Reaction) && SentNext(t, x, r)
    ensures SentAgain(s, x, r)
  {}

  /** The same of the first request, which is sent again as a first one. */
  lemma FirstStampIsAwaited(s: Req, c: Config, x: Ambient)
    requires Rests(s) && s.state == InitialSend && !s.rcvdTimestamp
    ensures var r := Call(s, c, x);
            if Minus(x.now, s.timer) < c.txtsLost then r == Passed(s, false, [])
            else if s.mockTs != 0 then
              r == Loop(s.(m := s.m.(t1 := s.mockTs), mockTs := 0, state := WaitingForResp), c, x)
            else Started(s, c, x, r)
  {
    hide Minus;
    hide InitialSendProc;
    LoopStep(s, c, x);
    var t := Iterate(s, c, x).s;
    if Minus(x.now, s.timer) >= c.txtsLost && s.mockTs == 0 {
      hide Iterate;
      StartLoop(t, c, x);
    }
  }

  /** A request that could not be sent is sent at the next call. */
  lemma FailedIsRetried(s: Req, c: Config, x: Ambient)
    requires s.enabled && s.lastState == Reaction
    ensures s.state == Send ==> SentNext(s, x, Call(s, c, x))
    ensures s.state == InitialSend ==> Started(s, c, x, Call(s, c, x))
  {
    if s.state == Send { NextLoop(s, c, x); }
    if s.state == InitialSend { StartLoop(s, c, x); }
  }

  lemma SentAfterPass(s: Req, c: Config, x: Ambient)
    requires var p := Iterate(s, c, x); !p.ends && p.s.state == Send && p.s.lastState != Send
    ensures var r := Loop(s, c, x);
            r.acts == Iterate(s, c, x).acts && SentNext(Iterate(s, c, x).s, x, r.(acts := []))
  {
    hide Iterate;
    LoopStep(s, c, x);
    NextLoop(Iterate(s, c, x).s, c, x);
  }

  lemma SentNextSame(s: Req, t: Req, x: Ambient, r: Passed)
    requires SentNext(s, x, r) && s == t.(state := Send)
    ensures SentNext(t, x, r)
  {}

  /** After an exchange, the next request is sent at the first call an interval after the last. */
  lemma NextIsSent(s: Req, c: Config, x: Ambient)
    requires Rests(s) && s.state == WaitingForIntervalTimer
    ensures var r := Call(s, c, x);
            if Minus(x.now, s.timer) < c.interval then r == Passed(s, false, []) else SentNext(s, x, r)
  {
    TimerPassIs(s, c, x);
    hide Iterate;
    hide Minus;
    hide SentNext;
    var t := Iterate(s, c, x).s;
    LoopStep(s, c, x);
    if t.state == Send {
      SentAfterPass(s, c, x);
      SentNextSame(t, s.(state := WaitingForIntervalTimer), x, Call(s, c, x));
    }
  }

  lemma TimerPassIs(s: Req, c: Config, x: Ambient)
    requires Rests(s) && s.state == WaitingForIntervalTimer
    ensures Iterate(s, c, x) == Passed(if Minus(x.now, s.timer) < c.interval then s else s.(state := Send), false, [])
  {
    hide Minus;
    hide IntervalTimerProc;
  }

  /** What a call makes of a port that was reset: the same, but after too many double answers not before five
      minutes, and these are then forgotten. */
  lemma ResetEnds(s: Req, c: Config, x: Ambient)
    requires Rests(s) && s.state == Reset
    ensures var r, t := Call(s, c, x), if Forgets(s, c, x.now) then s.(counters := s.counters.(multi := 0)) else s;
            var acts := if Forgets(s, c, x.now) then [A.AnswersForgotten] else [];
            if Minus(x.now, s.timer) < c.interval || (KeepsSilent(s, c) && !Forgets(s, c, x.now))
            then r == Passed(t, false, acts)
            else r.acts == acts && SentNext(t, x, r.(acts := []))
  {
    ResetRestIs(s, c, x);
    hide Iterate;
    hide Minus;
    hide SentNext;
    hide KeepsSilent;
    hide Forgets;
    var t := Iterate(s, c, x).s;
    LoopStep(s, c, x);
    if t.state == Send {
      SentAfterPass(s, c, x);
      SentNextSame(t, t.(state := Reset), x, Call(s, c, x).(acts := []));
    }
  }

  predicate KeepsSilent(s: Req, c: Config) { c.limits.conformToAvnu && s.counters.multi >= c.limits.allowedLostResponses }

  predicate Forgets(s: Req, c: Config, now: uint64) { KeepsSilent(s, c) && Minus(now, s.timer) >= 300_000_000_000 }

  lemma ResetRestIs(s: Req, c: Config, x: Ambient)
    requires Rests(s) && s.state == Reset
    ensures var t := if Forgets(s, c, x.now) then s.(counters := s.counters.(multi := 0)) else s;
            Iterate(s, c, x) ==
              Passed(if Minus(x.now, s.timer) < c.interval || (KeepsSilent(s, c) && !Forgets(s, c, x.now)) then t
                     else t.(state := Send), false, if Forgets(s, c, x.now) then [A.AnswersForgotten] else [])
  {
    hide Minus;
    hide ResetProc;
  }
}

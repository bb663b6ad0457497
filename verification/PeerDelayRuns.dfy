/** Convergence of the peer delay measurement over runs of the requester: exchanges over a steady
    link, polled at any times in between, from any state in which the requester waits. */
module PeerDelayRuns {
  import opened Words
  import opened Priority
  import opened BmcsState
  import opened RateRatio
  import opened PeerDelay
  import opened PeerDelayRequester
  import A = AsCapable

  // ------------------------------------------------------------------ runs

  function Run(s: Req, c: Config, evs: seq<Event>): Req {
    if evs == [] then s else Step(Run(s, c, evs[..|evs| - 1]), c, evs[|evs| - 1]).s
  }

  lemma {:induction false} RunMore(s: Req, c: Config, f: seq<Event>, g: seq<Event>)
    ensures Run(s, c, f + g) == Run(Run(s, c, f), c, g)
    decreases |g|
  {
    hide Step;
    if g == [] {
      assert f + g == f;
    } else {
      RunMore(s, c, f, g[..|g| - 1]);
      assert (f + g)[..|f + g| - 1] == f + g[..|g| - 1];
    }
  }

  /** Runs from the initial state are among these. */
  lemma {:induction false} RunIsAfter(c: Config, evs: seq<Event>, n: nat)
    requires n <= |evs|
    ensures After(c, evs, n) == Run(INITIAL, c, evs[..n])
  {
    hide Step;
    if n > 0 {
      RunIsAfter(c, evs, n - 1);
      assert evs[..n][..n - 1] == evs[..n - 1];
    }
  }

  // ------------------------------------------------------------------ polling

  /** The states in which the requester waits for something that has not come. */
  predicate Waiting(s: Req) {
    && s.enabled && s.lastState == s.state && !s.rcvdTimestamp && !s.rcvdResp && !s.rcvdFup
    && (s.state == Send || s.state == WaitingForResp || s.state == WaitingForRespFollowUp || s.state == WaitingForIntervalTimer)
  }

  /** A poll at a time at which nothing waited for is overdue. */
  predicate Early(s: Req, c: Config, x: Ambient) {
    Minus(x.now, s.timer) < if s.state == Send then c.txtsLost else c.interval
  }

  lemma PollChangesNothing(s: Req, c: Config, x: Ambient)
    requires Waiting(s) && Early(s, c, x)
    ensures Step(s, c, Timeout(x)).s == s
  {
    assert Iterate(s, c, x).s == s;
  }

  function Polls(xs: seq<Ambient>): seq<Event> {
    seq(|xs|, i requires 0 <= i < |xs| => Timeout(xs[i]))
  }

  predicate AllEarly(s: Req, c: Config, xs: seq<Ambient>) { forall i :: 0 <= i < |xs| ==> Early(s, c, xs[i]) }

  lemma {:induction false} PollsChangeNothing(s: Req, c: Config, xs: seq<Ambient>)
    requires Waiting(s) && AllEarly(s, c, xs)
    ensures Run(s, c, Polls(xs)) == s
    decreases |xs|
  {
    if xs != [] {
      var ys := xs[..|xs| - 1];
      PollsChangeNothing(s, c, ys);
      assert Polls(xs)[..|xs| - 1] == Polls(ys);
      PollChangesNothing(s, c, xs[|xs| - 1]);
    }
  }

  // ------------------------------------------------------------------ one exchange

  /** An exchange: when it is sent, timestamped and answered, with what, and the polls before each. */
  datatype Exchange = Exchange(
    t1: uint64, t4: uint64, resp: Resp, fup: RespFup,
    sending: Ambient, stamping: Ambient, responding: Ambient, following: Ambient,
    polls0: seq<Ambient>, polls1: seq<Ambient>, polls2: seq<Ambient>, polls3: seq<Ambient>)

  /** The state once the request is sent, once it is timestamped, and once the response has come. */
  function Requested(s: Req, e: Exchange): Req
    requires s.state == WaitingForIntervalTimer
  {
    s.(rcvdResp := false, rcvdFup := false, sequenceId := Next16(s.sequenceId), sentId := Next16(s.sequenceId),
       mockTs := if e.sending.outcome.SentWithoutTimestamp? then e.sending.outcome.ts else s.mockTs,
       timer := e.sending.now, state := Send, lastState := Send)
  }

  function Stamped(s: Req, e: Exchange): Req
    requires s.state == WaitingForIntervalTimer
  {
    Requested(s, e).(m := s.m.(t1 := e.t1), state := WaitingForResp, lastState := WaitingForResp)
  }

  function Responded(s: Req, e: Exchange): Req
    requires s.state == WaitingForIntervalTimer
  {
    Stamped(s, e).(resp := Some(e.resp), m := s.m.(t1 := e.t1, t2 := e.resp.receipt, t4 := e.t4),
                   state := WaitingForRespFollowUp, lastState := WaitingForRespFollowUp)
  }

  /** The requester waits for its next interval and measures both ratio and delay. */
  predicate Idle(s: Req) { Waiting(s) && s.state == WaitingForIntervalTimer && s.computeRatio && s.computeDelay }

  /** The request is sent once an interval is over, and answered by the neighbour within one. */
  predicate Answered(s: Req, c: Config, e: Exchange)
    requires Idle(s)
  {
    var id := Next16(s.sequenceId);
    && Minus(e.sending.now, s.timer) >= c.interval && !e.sending.outcome.Failed?
    && (forall x :: x in [e.stamping, e.responding, e.following] ==> Minus(x.now, e.sending.now) < c.interval)
    && e.resp.sequenceId == id && e.resp.source.clockIdentity != c.thisClock
    && e.resp.requester == PortIdentity(c.thisClock, c.thisPort)
    && e.fup.sequenceId == id && e.fup.source == e.resp.source
    && (c.cmlds || (e.resp.sdoId == 1 && e.fup.sdoId == 1))
    && AllEarly(s, c, e.polls0) && AllEarly(Requested(s, e), c, e.polls1)
    && AllEarly(Stamped(s, e), c, e.polls2) && AllEarly(Responded(s, e), c, e.polls3)
  }

  function EventsOf(s: Req, e: Exchange): seq<Event> {
    Polls(e.polls0) + [Timeout(e.sending)] +
    (Polls(e.polls1) + [TxTimestamp(e.t1, Next16(s.sequenceId), e.stamping)]) +
    (Polls(e.polls2) + [RespArrives(e.resp, e.t4, e.responding)]) +
    (Polls(e.polls3) + [FupArrives(e.fup, e.following)])
  }

  lemma TwoPasses(s: Req, c: Config, x: Ambient)
    requires !Iterate(s, c, x).ends && !Done(Iterate(s, c, x).s)
    requires var r := Iterate(Iterate(s, c, x).s, c, x); r.ends || Done(r.s)
    ensures Loop(s, c, x).s == Iterate(Iterate(s, c, x).s, c, x).s
  {
    hide Iterate;
  }

  lemma SendingStep(s: Req, c: Config, e: Exchange)
    requires Idle(s) && Answered(s, c, e)
    ensures Step(s, c, Timeout(e.sending)).s == Requested(s, e)
  {
    hide Minus;
    var t := Iterate(s, c, e.sending).s;
    assert t == s.(state := Send);
    assert Iterate(t, c, e.sending).s == Requested(s, e);
    TwoPasses(s, c, e.sending);
  }

  lemma StampingStep(s: Req, c: Config, e: Exchange)
    requires Idle(s) && Answered(s, c, e)
    ensures Step(Requested(s, e), c, TxTimestamp(e.t1, Next16(s.sequenceId), e.stamping)).s == Stamped(s, e)
  {
    hide Minus;
    var n := Requested(s, e).(m := s.m.(t1 := e.t1), rcvdTimestamp := true);
    assert e.stamping in [e.stamping, e.responding, e.following];
    var t := Iterate(n, c, e.stamping).s;
    assert t == n.(state := WaitingForResp);
    assert Iterate(t, c, e.stamping).s == Stamped(s, e);
    TwoPasses(n, c, e.stamping);
  }

  lemma RespondingStep(s: Req, c: Config, e: Exchange)
    requires Idle(s) && Answered(s, c, e)
    ensures Step(Stamped(s, e), c, RespArrives(e.resp, e.t4, e.responding)).s == Responded(s, e)
  {
    hide Minus;
    var n := Stamped(s, e).(rcvdResp := true, resp := Some(e.resp), m := s.m.(t1 := e.t1, t2 := e.resp.receipt));
    assert e.responding in [e.stamping, e.responding, e.following];
    var t := Iterate(n, c, e.responding).s;
    assert t == n.(state := WaitingForRespFollowUp);
    assert Iterate(t, c, e.responding).s == t.(rcvdResp := false, lastState := WaitingForRespFollowUp);
    TwoPasses(n, c, e.responding);
  }

  /** An interval measured counts when it is off by less than half of what it should be. */
  predicate Measurable(c: Config, dt: uint64) { c.interval / 2 < dt < c.interval + c.interval / 2 }

  /** What an exchange leaves behind: its timestamps; the ratio averaged with the one it measures since the
      exchange before, or with one; the delay computed with the average; and the
      verdict on that. */
  ghost predicate Measured(s: Req, c: Config, e: Exchange, r: Req) {
    var dt1, dt2 := Minus(e.t1, s.m.prevT1), Minus(e.resp.receipt, s.m.prevT2);
    var measured := Measurable(c, dt1) && Measurable(c, dt2);
    && Idle(r) && r.sequenceId == Next16(s.sequenceId) && r.m.prevT1 == e.t1 && r.m.prevT2 == e.resp.receipt
    && r.m.ratio == (s.m.ratio + if measured then dt2 as real / dt1 as real else 1.0) / 2.0
    && r.counters == A.Apply(c.limits, s.counters, A.Exchange(r.m.delay, measured, false))
    && r.m.delay == PropTime(r.m.ratio, e.t1, e.resp.receipt, e.fup.origin, e.t4)
  }

  /** The same in the terms of the machine. */
  ghost predicate Updated(s: Req, c: Config, e: Exchange, r: Req) {
    var dt1, dt2 := Minus(e.t1, s.m.prevT1), Minus(e.resp.receipt, s.m.prevT2);
    && Idle(r) && r.sequenceId == Next16(s.sequenceId) && r.m.prevT1 == e.t1 && r.m.prevT2 == e.resp.receipt
    && r.m.ratio == Averaged(s.m.ratio, MeasuredRatio(c.interval, dt1, dt2))
    && r.m.delay == PropTime(r.m.ratio, e.t1, e.resp.receipt, e.fup.origin, e.t4)
    && r.counters == A.Apply(c.limits, s.counters,
                             A.Exchange(r.m.delay, InWindow(c.interval, dt1) && InWindow(c.interval, dt2), false))
  }

  lemma UpdatedIsMeasured(s: Req, c: Config, e: Exchange, r: Req)
    requires Updated(s, c, e, r)
    ensures Measured(s, c, e, r)
  {
    hide Minus;
    hide PropTime;
    hide Idle;
  }

  lemma FollowingStep(s: Req, c: Config, e: Exchange)
    requires Idle(s) && Answered(s, c, e)
    ensures Updated(s, c, e, Step(Responded(s, e), c, FupArrives(e.fup, e.following)).s)
  {
    hide Minus;
    hide PropTime;
    hide MeasuredRatio;
    hide Averaged;
    hide InWindow;
    hide A.AfterExchange;
    hide A.Good;
    hide A.Fault;
    var n := Responded(s, e).(rcvdFup := true, fup := Some(e.fup), m := Responded(s, e).m.(t3 := e.fup.origin));
    assert e.following in [e.stamping, e.responding, e.following];
    var t := Iterate(n, c, e.following).s;
    assert t == n.(state := WaitingForIntervalTimer);
    var r := Iterate(t, c, e.following).s;
    assert r == IntervalTimerProc(t.(lastState := WaitingForIntervalTimer), c);
    TwoPasses(n, c, e.following);
  }

  lemma ExchangeUpdates(s: Req, c: Config, e: Exchange)
    requires Idle(s) && Answered(s, c, e)
    ensures Updated(s, c, e, Run(s, c, EventsOf(s, e)))
  {
    hide Step;
    hide Updated;
    hide Early;
    var s1, s2, s3 := Requested(s, e), Stamped(s, e), Responded(s, e);
    PolledStep(s, c, e.polls0, Timeout(e.sending));
    PolledStep(s1, c, e.polls1, TxTimestamp(e.t1, Next16(s.sequenceId), e.stamping));
    PolledStep(s2, c, e.polls2, RespArrives(e.resp, e.t4, e.responding));
    PolledStep(s3, c, e.polls3, FupArrives(e.fup, e.following));
    SendingStep(s, c, e);
    StampingStep(s, c, e);
    RespondingStep(s, c, e);
    FollowingStep(s, c, e);
    var f0 := Polls(e.polls0) + [Timeout(e.sending)];
    var f1 := Polls(e.polls1) + [TxTimestamp(e.t1, Next16(s.sequenceId), e.stamping)];
    var f2 := Polls(e.polls2) + [RespArrives(e.resp, e.t4, e.responding)];
    RunMore(s, c, f0, f1);
    RunMore(s, c, f0 + f1, f2);
    RunMore(s, c, f0 + f1 + f2, Polls(e.polls3) + [FupArrives(e.fup, e.following)]);
  }

  /** An answered request is an exchange, whenever the machine is polled in between. */
  lemma ExchangeMeasures(s: Req, c: Config, e: Exchange)
    requires Idle(s) && Answered(s, c, e)
    ensures Measured(s, c, e, Run(s, c, EventsOf(s, e)))
  {
    hide Run;
    hide Updated;
    hide Measured;
    ExchangeUpdates(s, c, e);
    UpdatedIsMeasured(s, c, e, Run(s, c, EventsOf(s, e)));
  }

  lemma PolledStep(s: Req, c: Config, xs: seq<Ambient>, ev: Event)
    requires Waiting(s) && AllEarly(s, c, xs)
    ensures Run(s, c, Polls(xs) + [ev]) == Step(s, c, ev).s
  {
    hide Step;
    PollsChangeNothing(s, c, xs);
    assert (Polls(xs) + [ev])[..|xs|] == Polls(xs);
  }

  // ------------------------------------------------------------------ many exchanges

  /** The events of the first `k` exchanges, and the state after them. */
  function EventsUpTo(s: Req, c: Config, es: seq<Exchange>, k: nat): seq<Event>
    requires k <= |es|
    decreases k, 0
  {
    if k == 0 then [] else EventsUpTo(s, c, es, k - 1) + EventsOf(StateAt(s, c, es, k - 1), es[k - 1])
  }

  function StateAt(s: Req, c: Config, es: seq<Exchange>, k: nat): Req
    requires k <= |es|
    decreases k, 1
  {
    Run(s, c, EventsUpTo(s, c, es, k))
  }

  /** Each of the first `k` exchanges is answered. */
  predicate AllAnswered(s: Req, c: Config, es: seq<Exchange>, k: nat)
    requires k <= |es|
  {
    forall i :: 0 <= i < k ==> Idle(StateAt(s, c, es, i)) && Answered(StateAt(s, c, es, i), c, es[i])
  }

  lemma ExchangeAt(s: Req, c: Config, es: seq<Exchange>, k: nat)
    requires k < |es| && AllAnswered(s, c, es, k + 1)
    ensures Updated(StateAt(s, c, es, k), c, es[k], StateAt(s, c, es, k + 1))
  {
    hide Run;
    hide Updated;
    var q := StateAt(s, c, es, k);
    RunMore(s, c, EventsUpTo(s, c, es, k), EventsOf(q, es[k]));
    ExchangeUpdates(q, c, es[k]);
  }

  // ------------------------------------------------------------------ a steady link

  /** The clocks run at the ratio `rate`, the delay is `d` both ways, and the exchanges are an interval
      apart on both sides. */
  predicate Steady(c: Config, es: seq<Exchange>, offset: real, rate: real, d: real) {
    && (forall e :: e in es ==> Symmetric(e.t1, e.resp.receipt, e.fup.origin, e.t4, offset, rate, d))
    && (forall i :: 1 <= i < |es| ==> Apart(c, es[i - 1], es[i]))
  }

  predicate Apart(c: Config, e: Exchange, f: Exchange) {
    && e.t1 <= f.t1 && e.resp.receipt <= f.resp.receipt
    && c.interval / 2 < Minus(f.t1, e.t1) < c.interval + c.interval / 2
    && c.interval / 2 < Minus(f.resp.receipt, e.resp.receipt) < c.interval + c.interval / 2
  }

  /** From the second exchange on, each averages in the true ratio. */
  lemma {:induction false} RatioAt(s: Req, c: Config, es: seq<Exchange>, n: nat, rates: seq<real>,
                                   offset: real, rate: real, d: real)
    requires n < |es| && AllAnswered(s, c, es, n + 1) && Steady(c, es, offset, rate, d)
    requires n <= |rates| && forall i :: 0 <= i < n ==> rates[i] == rate
    ensures StateAt(s, c, es, n + 1).m.ratio == RatioAfter(StateAt(s, c, es, 1).m.ratio, rates, n)
  {
    hide StateAt;
    hide Symmetric;
    hide MeasuredRatio;
    hide Answered;
    if n > 0 {
      RatioAt(s, c, es, n - 1, rates, offset, rate, d);
      ExchangeAt(s, c, es, n - 1);
      ExchangeAt(s, c, es, n);
      var e, f := es[n - 1], es[n];
      assert Apart(c, e, f);
      assert e in es && f in es;
      SteadyLinkIsMeasured(c.interval, e.t1, e.resp.receipt, e.fup.origin, e.t4,
                           f.t1, f.resp.receipt, f.fup.origin, f.t4, offset, rate, d);
    }
  }

  function Abs(x: real): real { if x < 0.0 then -x else x }

  /** A delay computed with `ratio` is off from `d` by at most `err` over half the turnaround and rounding;
      exactly when the result is out of range it is 0 instead. */
  predicate DelayClose(delay: nat, ratio: real, rate: real, err: real, e: Exchange, d: real) {
    if InRange(d + (ratio - rate) * (e.t4 - e.t1) as real / 2.0)
    then Near(delay as real - d, err * (e.t4 - e.t1) as real / 2.0 + 1.0)
    else delay == 0
  }

  /** The ratio is off by 2^-n of what `start` is off by, exactly, and the delay accordingly. */
  predicate Converged(start: real, rate: real, n: nat, ratio: real, delay: nat, e: Exchange, d: real) {
    && ratio - rate == (start - rate) * Half(n)
    && DelayClose(delay, ratio, rate, Abs(start - rate) * Half(n), e, d)
  }

  lemma DelayBound(ratio: real, start: real, rate: real, h: real, err: real, e: Exchange, offset: real, d: real)
    requires ratio - rate == (start - rate) * h && h > 0.0 && err == Abs(start - rate) * h
    requires Symmetric(e.t1, e.resp.receipt, e.fup.origin, e.t4, offset, rate, d)
    ensures DelayClose(PropTime(ratio, e.t1, e.resp.receipt, e.fup.origin, e.t4), ratio, rate, err, e, d)
  {
    hide PropTime;
    hide Symmetric;
    hide InRange;
    assert Near(start - rate, Abs(start - rate));
    ScaledError(ratio, start, rate, h, Abs(start - rate));
    DelayComputed(ratio, e.t1, e.resp.receipt, e.fup.origin, e.t4, offset, rate, d, err);
  }

  lemma AveragesConverge(start: real, rate: real, rates: seq<real>, n: nat, ratio: real, e: Exchange, offset: real, d: real)
    requires n <= |rates| && (forall i :: 0 <= i < n ==> rates[i] == rate) && ratio == RatioAfter(start, rates, n)
    requires Symmetric(e.t1, e.resp.receipt, e.fup.origin, e.t4, offset, rate, d)
    ensures Converged(start, rate, n, ratio, PropTime(ratio, e.t1, e.resp.receipt, e.fup.origin, e.t4), e, d)
  {
    hide PropTime;
    hide Symmetric;
    hide DelayClose;
    ErrorHalves(start, rates, n, rate);
    var h, err := Half(n), Abs(start - rate) * Half(n);
    DelayBound(ratio, start, rate, h, err, e, offset, d);
  }

  /** Convergence: whatever came before, after one exchange over a steady link and `n` more, polled at
      any time in between, the ratio is off by 2^-n of what it was off by after the first, exactly; and
      the delay by at most half the turnaround times that, and rounding, unless it is out of range. */
  lemma RequesterConverges(s: Req, c: Config, es: seq<Exchange>, n: nat, offset: real, rate: real, d: real)
    requires n < |es| && AllAnswered(s, c, es, n + 1) && Steady(c, es, offset, rate, d)
    ensures var m := StateAt(s, c, es, n + 1).m;
            Converged(StateAt(s, c, es, 1).m.ratio, rate, n, m.ratio, m.delay, es[n], d)
  {
    hide StateAt;
    hide Answered;
    hide PropTime;
    hide Converged;
    hide MeasuredRatio;
    hide Averaged;
    hide Symmetric;
    var rates := seq(n, i => rate);
    RatioAt(s, c, es, n, rates, offset, rate, d);
    ExchangeAt(s, c, es, n);
    assert es[n] in es;
    AveragesConverge(StateAt(s, c, es, 1).m.ratio, rate, rates, n, StateAt(s, c, es, n + 1).m.ratio, es[n], offset, d);
  }
}

/** The peer delay requester as a machine (md_pdelay_req_sm.c): its passes as functions, the machine
    as a class, and that asCapable is earned over every order of events. A request that cannot be
    composed for want of a network handle is not modelled. */
module PeerDelayRequester {
  import opened Words
  import opened Priority
  import opened BmcsState
  import opened PeerDelay
  import A = AsCapable

  datatype ReqState =
    | Init | NotEnabled | InitialSend | Reset | Send
    | WaitingForResp | WaitingForRespFollowUp | WaitingForIntervalTimer | Reaction

  datatype Resp = Resp(sequenceId: uint16, sdoId: nat, source: PortIdentity, requester: PortIdentity, receipt: uint64)

  datatype RespFup = RespFup(sequenceId: uint16, sdoId: nat, source: PortIdentity, origin: uint64)

  datatype Config = Config(
    limits: A.Limits, thisClock: ClockIdentity, thisPort: uint16,
    interval: nat,                  // pdelayReqInterval
    txtsLost: nat,                  // gptpnet_txtslost_time
    cmlds: bool)

  datatype Measurement = Measurement(
    ratio: real, delay: nat, measuring: bool,
    t1: uint64, t2: uint64, t3: uint64, t4: uint64, prevT1: uint64, prevT2: uint64)

  datatype ReqRecord = ReqRecord(
    enabled: bool,                  // portOper and portEnabled0
    computeRatio: bool, computeDelay: bool,
    state: ReqState, lastState: ReqState,
    rcvdTimestamp: bool, rcvdResp: bool, resp: Option<Resp>, rcvdFup: bool, fup: Option<RespFup>,
    sequenceId: uint16, sentId: uint16, timer: uint64, mockTs: uint64,
    counters: A.Counters, m: Measurement)

  const INITIAL: ReqRecord := ReqRecord(false, true, true, Init, Init, false, false, None, false, None, 0, 0, 0, 0,
                                        A.INITIAL, Measurement(0.0, 0, false, 0, 0, 0, 0, 0, 0))

  /** Time, transmission and the random first sequence number at one call. */
  datatype Ambient = Ambient(now: uint64, outcome: Outcome, random: uint16)

  predicate Sound(s: ReqRecord) {
    && (s.rcvdResp ==> s.resp.Some?)
    && (s.rcvdFup ==> s.fup.Some?)
    && (s.state == WaitingForRespFollowUp || s.state == WaitingForIntervalTimer ==> s.resp.Some?)
  }

  // ------------------------------------------------------------------ one pass

  type Req = s: ReqRecord | Sound(s) witness INITIAL

  predicate Elapsed(s: ReqRecord, now: uint64, time: nat) { Minus(now, s.timer) >= time }

  function InitialSendPrepared(s: ReqRecord, random: uint16): ReqRecord {
    s.(rcvdResp := false, rcvdFup := false, m := s.m.(ratio := 1.0, prevT1 := 0, prevT2 := 0),
       rcvdTimestamp := false, sequenceId := random, sentId := random)
  }

  function InitialSendProc(s: ReqRecord, x: Ambient): ReqRecord {
    var t := InitialSendPrepared(s, x.random);
    if x.outcome.Failed? then t.(lastState := Reaction)
    else
      t.(mockTs := if x.outcome.SentWithoutTimestamp? then x.outcome.ts else t.mockTs, timer := x.now,
         counters := t.counters.(lost := 0, multi := 0, faults := 0, asCapable := false),
         m := t.m.(measuring := false))
  }

  function InitialSendCondition(s: ReqRecord, c: Config, now: uint64): ReqRecord {
    if s.rcvdTimestamp then s.(state := WaitingForResp)
    else if !Elapsed(s, now, c.txtsLost) then s
    else if s.mockTs != 0 then s.(m := s.m.(t1 := s.mockTs), mockTs := 0, state := WaitingForResp)
    else s.(lastState := Reaction)
  }

  function ResetProc(s: ReqRecord, l: A.Limits): (r: ReqRecord)
    ensures r == s.(rcvdResp := false, counters := A.AfterReset(l, s.counters), m := s.m.(measuring := r.m.measuring, ratio := r.m.ratio))
  {
    var c := s.counters;
    var exhausted := c.lost >= l.allowedLostResponses;
    var ceases := !(exhausted && !c.asCapable) && l.conformToAvnu && c.multi > 0 && c.multi >= l.allowedLostResponses;
    s.(rcvdResp := false, counters := A.AfterReset(l, c),
       m := s.m.(measuring := s.m.measuring && !exhausted && !ceases,
                 ratio := if (exhausted && c.asCapable) || ceases then 1.0 else s.m.ratio))
  }

  /** Whether the machine stays silent after double answers, and when it forgets them. */
  predicate Ceasing(s: ReqRecord, l: A.Limits) { l.conformToAvnu && s.counters.multi >= l.allowedLostResponses }

  function ResetCondition(s: ReqRecord, c: Config, now: uint64): (r: ReqRecord)
    ensures r == s.(counters := r.counters, state := r.state)
    ensures r.counters == if Ceasing(s, c.limits) && Elapsed(s, now, CEASE_TIME) then s.counters.(multi := 0) else s.counters
    ensures r.state == s.state || r.state == Send
  {
    if Ceasing(s, c.limits) && !Elapsed(s, now, CEASE_TIME) then s
    else
      var t := if Ceasing(s, c.limits) then s.(counters := s.counters.(multi := 0)) else s;
      if Elapsed(t, now, c.interval) then t.(state := Send) else t
  }

  function SendProc(s: ReqRecord, x: Ambient): ReqRecord {
    var t := s.(rcvdResp := false, rcvdFup := false, sequenceId := Next16(s.sequenceId), sentId := Next16(s.sequenceId));
    if x.outcome.Failed? then t.(sequenceId := Before16(t.sequenceId), lastState := Reaction)
    else t.(mockTs := if x.outcome.SentWithoutTimestamp? then x.outcome.ts else t.mockTs, timer := x.now)
  }

  function SendCondition(s: ReqRecord, c: Config, now: uint64): ReqRecord {
    if s.rcvdTimestamp then s.(state := WaitingForResp)
    else if !Elapsed(s, now, c.txtsLost) then s
    else if s.mockTs != 0 then s.(m := s.m.(t1 := s.mockTs), mockTs := 0, state := WaitingForResp)
    else s.(sequenceId := Before16(s.sequenceId), lastState := Reaction)
  }

  function RespCondition(s: Req, c: Config, now: uint64): (r: Req)
    ensures r == s.(rcvdFup := r.rcvdFup, state := r.state) && (r.rcvdFup ==> s.rcvdFup)
    ensures r.state == s.state || r.state == Reset || (r.state == WaitingForRespFollowUp && s.rcvdResp)
  {
    if Elapsed(s, now, c.interval) then s.(state := Reset)
    else if !s.rcvdResp then s.(rcvdFup := false)
    else
      var r := s.resp.value;
      if r.source.clockIdentity == c.thisClock || r.requester != PortIdentity(c.thisClock, c.thisPort)
      then s.(state := Reset)
      else if !c.cmlds && r.sdoId != 1 then s
      else if r.sequenceId > s.sentId then s.(state := Reset)
      else s.(state := WaitingForRespFollowUp)
  }

  function RespFollowUpCondition(s: Req, c: Config, now: uint64): (r: Req)
    requires s.resp.Some?
    ensures r == s.(counters := r.counters, state := r.state)
    ensures r.state == s.state || r.state == Reset || r.state == WaitingForIntervalTimer
  {
    if Elapsed(s, now, c.interval) then s.(state := Reset)
    else if s.rcvdResp && s.resp.value.sequenceId == s.sentId
    then s.(counters := s.counters.(multi := s.counters.multi + 1), state := Reset)
    else if !s.rcvdFup || (!c.cmlds && s.fup.value.sdoId != 1) then s
    else if s.fup.value.source.clockIdentity == c.thisClock then s.(state := Reset)
    else if s.fup.value.sequenceId != s.sentId then s
    else if s.fup.value.source == s.resp.value.source || s.resp.value.requester == PortIdentity(c.thisClock, c.thisPort)
    then s.(state := WaitingForIntervalTimer)
    else s
  }

  /** Whether the exchange yields a ratio, the ratio, and the delay. */
  function Measures(s: ReqRecord, c: Config): bool {
    !s.computeRatio || (InWindow(c.interval, Minus(s.m.t1, s.m.prevT1)) && InWindow(c.interval, Minus(s.m.t2, s.m.prevT2)))
  }

  function RatioNow(s: ReqRecord, c: Config): real {
    if s.computeRatio
    then Averaged(s.m.ratio, MeasuredRatio(c.interval, Minus(s.m.t1, s.m.prevT1), Minus(s.m.t2, s.m.prevT2)))
    else s.m.ratio
  }

  function DelayNow(s: ReqRecord, c: Config): nat {
    if s.computeDelay then PropTime(RatioNow(s, c), s.m.t1, s.m.t2, s.m.t3, s.m.t4) else s.m.delay
  }

  function ExchangeAct(s: ReqRecord, c: Config): A.Act
    requires s.resp.Some?
  {
    A.Exchange(DelayNow(s, c), Measures(s, c), s.resp.value.source.clockIdentity == c.thisClock)
  }

  function IntervalTimerProc(s: ReqRecord, c: Config): ReqRecord
    requires s.resp.Some?
  {
    var a := ExchangeAct(s, c);
    var d := A.AfterExchange(c.limits, s.counters, a);
    var kept := A.Good(c.limits, s.counters.ratioValid, a) ||
                (A.Fault(c.limits, s.counters.ratioValid, a) && s.counters.faults <= c.limits.allowedFaults);
    s.(rcvdFup := false, counters := d,
       m := s.m.(ratio := RatioNow(s, c), delay := DelayNow(s, c), measuring := kept,
                 prevT1 := if s.computeRatio then s.m.t1 else s.m.prevT1,
                 prevT2 := if s.computeRatio then s.m.t2 else s.m.prevT2))
  }

  function IntervalTimerCondition(s: ReqRecord, c: Config, now: uint64): ReqRecord {
    if Elapsed(s, now, c.interval) then s.(state := Send) else s
  }

  /** One pass of the dispatch loop, whether it ends the call, and what happened for asCapable. */
  datatype Passed = Passed(s: Req, ends: bool, acts: seq<A.Act>)

  predicate Done(s: ReqRecord) { s.lastState == s.state }

  /** Decreases over the dispatch loop. */
  function Rank(state: ReqState, done: bool): nat {
    (if done then 20 else 10) +
    match state
    case Init => 8
    case NotEnabled => 7
    case InitialSend => if done then 6 else -10
    case Send => if done then 6 else -10
    case WaitingForResp => 5
    case WaitingForRespFollowUp => 4
    case Reset => 2
    case WaitingForIntervalTimer => 2
    case Reaction => 0
  }

  /** A pass ends the call, stays, or leads on. */
  predicate LeadsOn(r: Passed, state: ReqState, change: bool) {
    r.ends || Done(r.s) || Rank(r.s.state, false) < Rank(state, !change)
  }

  function InitialSendPass(s: Req, change: bool, c: Config, x: Ambient): (r: Passed)
    requires s.state == s.lastState == InitialSend
    ensures LeadsOn(r, InitialSend, change)
  {
    if change then Passed(InitialSendProc(s, x), true, if x.outcome.Failed? then [] else [A.Started])
    else Passed(InitialSendCondition(s, c, x.now), false, [])
  }

  function ResetState(s: Req, change: bool, c: Config, now: uint64): (r: Req)
    ensures r.state == s.state || r.state == Send
    ensures r.lastState == s.lastState && r.resp == s.resp && r.fup == s.fup
    ensures r.rcvdFup == s.rcvdFup && (r.rcvdResp ==> s.rcvdResp)
  {
    ResetCondition(if change then ResetProc(s, c.limits) else s, c, now)
  }

  function ResetActs(s: ReqRecord, change: bool, c: Config, now: uint64): seq<A.Act> {
    var u := if change then ResetProc(s, c.limits) else s;
    (if change then [A.ResetEntered] else []) +
    (if Ceasing(u, c.limits) && Elapsed(u, now, CEASE_TIME) then [A.AnswersForgotten] else [])
  }

  function ResetPass(s: Req, change: bool, c: Config, x: Ambient): (r: Passed)
    requires s.state == s.lastState == Reset
    ensures LeadsOn(r, Reset, change)
  {
    Passed(ResetState(s, change, c, x.now), false, ResetActs(s, change, c, x.now))
  }

  function SendPass(s: Req, change: bool, c: Config, x: Ambient): (r: Passed)
    requires s.state == s.lastState == Send
    ensures LeadsOn(r, Send, change)
    ensures r.s.counters == s.counters && r.acts == []
  {
    if change then Passed(SendProc(s, x), true, []) else Passed(SendCondition(s, c, x.now), false, [])
  }

  function RespPass(s: Req, change: bool, c: Config, x: Ambient): (r: Passed)
    requires s.state == s.lastState == WaitingForResp
    ensures LeadsOn(r, WaitingForResp, change)
    ensures r.s.counters == s.counters && r.acts == []
  {
    Passed(RespCondition(if change then s.(rcvdTimestamp := false) else s, c, x.now), false, [])
  }

  function RespFollowUpPass(s: Req, change: bool, c: Config, x: Ambient): (r: Passed)
    requires s.state == s.lastState == WaitingForRespFollowUp
    ensures LeadsOn(r, WaitingForRespFollowUp, change)
  {
    var u := if change then s.(rcvdResp := false) else s;
    var v := RespFollowUpCondition(u, c, x.now);
    Passed(v, false, if v.counters.multi != u.counters.multi then [A.AnsweredTwice] else [])
  }

  function IntervalTimerPass(s: Req, change: bool, c: Config, x: Ambient): (r: Passed)
    requires s.state == s.lastState == WaitingForIntervalTimer
    ensures LeadsOn(r, WaitingForIntervalTimer, change)
  {
    Passed(IntervalTimerCondition(if change then IntervalTimerProc(s, c) else s, c, x.now), false,
           if change then [ExchangeAct(s, c)] else [])
  }

  function Iterate(s: Req, c: Config, x: Ambient): (r: Passed)
    ensures LeadsOn(r, s.state, s.lastState != s.state)
  {
    var change := s.lastState != s.state;
    var t := s.(lastState := s.state);
    match s.state
    case Init => Passed(t.(state := NotEnabled), false, [])
    case NotEnabled => Passed(if t.enabled then t.(state := InitialSend) else t, false, [])
    case InitialSend => InitialSendPass(t, change, c, x)
    case Reset => ResetPass(t, change, c, x)
    case Send => SendPass(t, change, c, x)
    case WaitingForResp => RespPass(t, change, c, x)
    case WaitingForRespFollowUp => RespFollowUpPass(t, change, c, x)
    case WaitingForIntervalTimer => IntervalTimerPass(t, change, c, x)
    case Reaction => Passed(t, false, [])
  }

  /** The dispatch loop, which ends from every state. */
  function Loop(s: Req, c: Config, x: Ambient): Passed
    decreases Rank(s.state, Done(s))
  {
    var r := Iterate(s, c, x);
    if r.ends || Done(r.s) then r
    else
      var q := Loop(r.s, c, x);
      Passed(q.s, q.ends, r.acts + q.acts)
  }

  function Call(s: Req, c: Config, x: Ambient): Passed {
    Loop(if s.enabled then s else s.(state := NotEnabled), c, x)
  }

  // ------------------------------------------------------------------ the machine

  class Requester {
    const config: Config
    var enabled: bool
    var computeNeighborRateRatio: bool
    var computeNeighborPropDelay: bool
    var state: ReqState
    var lastState: ReqState
    var rcvdMDTimestampReceive: bool
    var rcvdPdelayResp: bool
    var recPdelayResp: Option<Resp>
    var rcvdPdelayRespFollowUp: bool
    var recPdelayRespFup: Option<RespFup>
    var pdelayReqSequenceId: uint16
    var sentId: uint16
    var pdelayIntervalTimer: uint64
    var mockTxTs: uint64
    var counters: A.Counters
    var m: Measurement

    ghost function Snapshot(): ReqRecord
      reads this
    {
      ReqRecord(enabled, computeNeighborRateRatio, computeNeighborPropDelay, state, lastState, rcvdMDTimestampReceive,
                rcvdPdelayResp, recPdelayResp, rcvdPdelayRespFollowUp, recPdelayRespFup, pdelayReqSequenceId, sentId,
                pdelayIntervalTimer, mockTxTs, counters, m)
    }

    constructor (config: Config)
      ensures this.config == config && Snapshot() == INITIAL
    {
      this.config := config;
      enabled, computeNeighborRateRatio, computeNeighborPropDelay := false, true, true;
      state, lastState := Init, Init;
      rcvdMDTimestampReceive, rcvdPdelayResp, rcvdPdelayRespFollowUp := false, false, false;
      recPdelayResp, recPdelayRespFup := None, None;
      pdelayReqSequenceId, sentId, pdelayIntervalTimer, mockTxTs := 0, 0, 0, 0;
      counters := A.Counters(false, 0, 0, 0, false);
      m := Measurement(0.0, 0, false, 0, 0, 0, 0, 0, 0);
    }

    /** What initial_send_pdelay_req_proc does before it sends. */
    method PrepareInitialSend(random: uint16)
      modifies this
      ensures Snapshot() == InitialSendPrepared(old(Snapshot()), random)
    {
      rcvdPdelayResp, rcvdPdelayRespFollowUp := false, false;
      m := m.(ratio := 1.0, prevT1 := 0, prevT2 := 0);
      rcvdMDTimestampReceive := false;
      pdelayReqSequenceId := random;
      sentId := pdelayReqSequenceId;
    }

    method InitialSendPdelayReqProc(x: Ambient)
      modifies this
      ensures Snapshot() == InitialSendProc(old(Snapshot()), x)
    {
      PrepareInitialSend(x.random);
      if x.outcome.Failed? {
        lastState := Reaction;
        return;
      }
      if x.outcome.SentWithoutTimestamp? { mockTxTs := x.outcome.ts; }
      pdelayIntervalTimer := x.now;
      counters := counters.(lost := 0, multi := 0, faults := 0, asCapable := false);
      m := m.(measuring := false);
    }

    method ResetProcedure()
      modifies this`rcvdPdelayResp, this`counters, this`m
      ensures Snapshot() == ResetProc(old(Snapshot()), config.limits)
    {
      var limits := config.limits;
      rcvdPdelayResp := false;
      if counters.lost < limits.allowedLostResponses {
        counters := counters.(lost := counters.lost + 1);
      } else {
        m := m.(measuring := false);
        if !counters.asCapable { return; }
        counters := counters.(asCapable := false, ratioValid := false);
        m := m.(ratio := 1.0);
      }
      if limits.conformToAvnu && counters.multi != 0 {
        if counters.multi >= limits.allowedLostResponses {
          m := m.(measuring := false, ratio := 1.0);
          counters := counters.(asCapable := false, ratioValid := false);
        }
      }
    }

    method ResetNext(now: uint64)
      requires state == Reset
      modifies this`counters, this`state
      ensures Snapshot() == ResetCondition(old(Snapshot()), config, now)
    {
      if config.limits.conformToAvnu && counters.multi >= config.limits.allowedLostResponses {
        if Minus(now, pdelayIntervalTimer) < CEASE_TIME { return; }
        counters := counters.(multi := 0);
      }
      if Minus(now, pdelayIntervalTimer) >= config.interval { state := Send; }
    }

    method SendPdelayReqProc(x: Ambient)
      modifies this
      ensures Snapshot() == SendProc(old(Snapshot()), x)
    {
      hide Next16;
      hide Before16;
      rcvdPdelayResp, rcvdPdelayRespFollowUp := false, false;
      pdelayReqSequenceId := Next16(pdelayReqSequenceId);
      sentId := pdelayReqSequenceId;
      if x.outcome.Failed? {
        pdelayReqSequenceId := Before16(pdelayReqSequenceId);
        lastState := Reaction;
        return;
      }
      if x.outcome.SentWithoutTimestamp? { mockTxTs := x.outcome.ts; }
      pdelayIntervalTimer := x.now;
    }

    /** The wait for the timestamp of a request. */
    method SendNext(now: uint64)
      requires state == Send || state == InitialSend
      modifies this`m, this`mockTxTs, this`state, this`lastState, this`pdelayReqSequenceId
      ensures Snapshot() == if old(state) == Send then SendCondition(old(Snapshot()), config, now)
                            else InitialSendCondition(old(Snapshot()), config, now)
    {
      if rcvdMDTimestampReceive {
        state := WaitingForResp;
      } else if Minus(now, pdelayIntervalTimer) >= config.txtsLost {
        if mockTxTs != 0 {
          m, mockTxTs := m.(t1 := mockTxTs), 0;
          state := WaitingForResp;
        } else {
          if state == Send { pdelayReqSequenceId := Before16(pdelayReqSequenceId); }
          lastState := Reaction;
        }
      }
    }

    method RespNext(now: uint64)
      requires Sound(Snapshot()) && state == WaitingForResp
      modifies this`state, this`rcvdPdelayRespFollowUp
      ensures Snapshot() == RespCondition(old(Snapshot()), config, now)
    {
      if Minus(now, pdelayIntervalTimer) >= config.interval {
        state := Reset;
        return;
      }
      if !rcvdPdelayResp {
        rcvdPdelayRespFollowUp := false;
        return;
      }
      var r := recPdelayResp.value;
      if r.source.clockIdentity == config.thisClock || r.requester.clockIdentity != config.thisClock ||
         r.requester.portNumber != config.thisPort {
        state := Reset;
        return;
      }
      if !config.cmlds && r.sdoId != 1 { return; }
      if r.sequenceId != sentId && !(sentId > r.sequenceId) {
        state := Reset;
        return;
      }
      state := WaitingForRespFollowUp;
    }

    method RespFollowUpNext(now: uint64)
      requires Sound(Snapshot()) && state == WaitingForRespFollowUp
      modifies this`state, this`counters
      ensures Snapshot() == RespFollowUpCondition(old(Snapshot()), config, now)
    {
      if Minus(now, pdelayIntervalTimer) >= config.interval {
        state := Reset;
        return;
      }
      var r := recPdelayResp.value;
      if rcvdPdelayResp && r.sequenceId == sentId {
        counters := counters.(multi := counters.multi + 1);
        state := Reset;
        return;
      }
      if !rcvdPdelayRespFollowUp { return; }
      var f := recPdelayRespFup.value;
      if !config.cmlds && f.sdoId != 1 { return; }
      if f.source.clockIdentity == config.thisClock {
        state := Reset;
        return;
      }
      if f.sequenceId != sentId { return; }
      if f.source == r.source ||
         (r.requester.clockIdentity == config.thisClock && r.requester.portNumber == config.thisPort) {
        state := WaitingForIntervalTimer;
      }
    }

    /** computePdelayRateRatio, or a ratio that counts as valid when none is to be computed. */
    method UpdateRatio()
      modifies this`m, this`counters
      ensures var s := old(Snapshot());
              counters == old(counters).(ratioValid := old(counters).ratioValid || Measures(s, config)) &&
              m == old(m).(ratio := RatioNow(s, config), prevT1 := if s.computeRatio then old(m).t1 else old(m).prevT1,
                           prevT2 := if s.computeRatio then old(m).t2 else old(m).prevT2)
    {
      if !computeNeighborRateRatio {
        counters := counters.(ratioValid := true);
        return;
      }
      var dt1, dt2 := Minus(m.t1, m.prevT1), Minus(m.t2, m.prevT2);
      var mind := config.interval / 2;
      var maxd := config.interval + mind;
      var measured := 1.0;
      if dt1 > mind && dt1 < maxd && dt2 > mind && dt2 < maxd {
        measured := dt2 as real / dt1 as real;
        counters := counters.(ratioValid := true);
      }
      m := m.(prevT1 := m.t1, prevT2 := m.t2, ratio := (m.ratio + measured) / 2.0);
    }

    /** The verdict on an exchange: good, a fault that is only counted, or the end of asCapable. */
    method Judge(fromSelf: bool)
      modifies this`counters, this`m
      ensures var c, limits := old(counters), config.limits;
              var a := A.Exchange(old(m).delay, c.ratioValid, fromSelf);
              var good, fault := A.Good(limits, c.ratioValid, a), A.Fault(limits, c.ratioValid, a) && c.faults <= limits.allowedFaults;
              counters == (if good then c.(faults := 0, asCapable := true)
                           else if fault then c.(faults := c.faults + 1) else A.Incapable(c)) &&
              m == old(m).(measuring := old(m).measuring && (good || fault))
    {
      var limits := config.limits;
      if m.delay < limits.minDelay && !fromSelf && counters.ratioValid {
        // a fault
      } else if m.delay <= limits.maxDelay && !fromSelf && counters.ratioValid {
        counters := counters.(faults := 0, asCapable := true);
        return;
      } else if !fromSelf {
        counters := counters.(asCapable := false, faults := 0);
        m := m.(measuring := false);
        return;
      }
      if counters.faults <= limits.allowedFaults {
        counters := counters.(faults := counters.faults + 1);
        return;
      }
      counters := counters.(asCapable := false, faults := 0);
      m := m.(measuring := false);
    }

    /** The measurements of a completed exchange. */
    method TakeMeasurements()
      modifies this`rcvdPdelayRespFollowUp, this`counters, this`m
      ensures var s := old(Snapshot());
              Snapshot() == s.(rcvdFup := false,
                counters := s.counters.(lost := 0, multi := 0, ratioValid := s.counters.ratioValid || Measures(s, config)),
                m := s.m.(ratio := RatioNow(s, config), delay := DelayNow(s, config), measuring := true,
                          prevT1 := if s.computeRatio then s.m.t1 else s.m.prevT1,
                          prevT2 := if s.computeRatio then s.m.t2 else s.m.prevT2))
    {
      hide PropTime;
      hide MeasuredRatio;
      hide Averaged;
      hide Minus;
      hide InWindow;
      rcvdPdelayRespFollowUp := false;
      counters := counters.(lost := 0, multi := 0);
      UpdateRatio();
      if computeNeighborPropDelay { m := m.(delay := PropTime(m.ratio, m.t1, m.t2, m.t3, m.t4)); }
      m := m.(measuring := true);
    }

    method WaitingForPdelayIntervalTimerProc()
      requires recPdelayResp.Some?
      modifies this`rcvdPdelayRespFollowUp, this`counters, this`m
      ensures Snapshot() == IntervalTimerProc(old(Snapshot()), config)
    {
      hide RatioNow;
      hide DelayNow;
      hide Measures;
      TakeMeasurements();
      Judge(recPdelayResp.value.source.clockIdentity == config.thisClock);
    }

    method PassInitialSend(change: bool, x: Ambient) returns (ends: bool)
      requires Sound(Snapshot()) && state == lastState == InitialSend
      modifies this
      ensures var r := InitialSendPass(old(Snapshot()), change, config, x); Snapshot() == r.s && ends == r.ends
    {
      hide InitialSendProc;
      hide InitialSendCondition;
      if change { InitialSendPdelayReqProc(x); } else { SendNext(x.now); }
      ends := change;
    }

    method PassReset(change: bool, x: Ambient)
      requires Sound(Snapshot()) && state == lastState == Reset
      modifies this
      ensures Snapshot() == ResetPass(old(Snapshot()), change, config, x).s
    {
      hide ResetProc;
      hide ResetCondition;
      if change { ResetProcedure(); }
      ResetNext(x.now);
    }

    method PassSend(change: bool, x: Ambient) returns (ends: bool)
      requires Sound(Snapshot()) && state == lastState == Send
      modifies this
      ensures var r := SendPass(old(Snapshot()), change, config, x); Snapshot() == r.s && ends == r.ends
    {
      hide SendProc;
      hide SendCondition;
      if change { SendPdelayReqProc(x); } else { SendNext(x.now); }
      ends := change;
    }

    method PassResp(change: bool, x: Ambient)
      requires Sound(Snapshot()) && state == lastState == WaitingForResp
      modifies this
      ensures Snapshot() == RespPass(old(Snapshot()), change, config, x).s
    {
      hide RespCondition;
      if change { rcvdMDTimestampReceive := false; }
      RespNext(x.now);
    }

    method PassRespFollowUp(change: bool, x: Ambient)
      requires Sound(Snapshot()) && state == lastState == WaitingForRespFollowUp
      modifies this
      ensures Snapshot() == RespFollowUpPass(old(Snapshot()), change, config, x).s
    {
      hide RespFollowUpCondition;
      if change { rcvdPdelayResp := false; }
      RespFollowUpNext(x.now);
    }

    method PassIntervalTimer(change: bool, x: Ambient)
      requires Sound(Snapshot()) && state == lastState == WaitingForIntervalTimer
      modifies this
      ensures Snapshot() == IntervalTimerPass(old(Snapshot()), change, config, x).s
    {
      if change {
        WaitingForPdelayIntervalTimerProc();
      }
      hide RatioNow;
      hide DelayNow;
      hide Measures;
      if Minus(x.now, pdelayIntervalTimer) >= config.interval { state := Send; }
    }

    /** One pass of md_pdelay_req_sm; `ends` when a request was sent. */
    method Pass(x: Ambient) returns (ends: bool)
      requires Sound(Snapshot())
      modifies this
      ensures var r := Iterate(old(Snapshot()), config, x); Snapshot() == r.s && ends == r.ends
    {
      var change := lastState != state;
      lastState := state;
      ends := false;
      hide InitialSendPass;
      hide ResetPass;
      hide SendPass;
      hide RespPass;
      hide RespFollowUpPass;
      hide IntervalTimerPass;
      hide LeadsOn;
      match state
      case Init => state := NotEnabled;
      case NotEnabled => if enabled { state := InitialSend; }
      case InitialSend => ends := PassInitialSend(change, x);
      case Reset => PassReset(change, x);
      case Send => ends := PassSend(change, x);
      case WaitingForResp => PassResp(change, x);
      case WaitingForRespFollowUp => PassRespFollowUp(change, x);
      case WaitingForIntervalTimer => PassIntervalTimer(change, x);
      case Reaction =>
    }

    /** md_pdelay_req_sm: true when a request was sent. */
    method Run(x: Ambient) returns (sent: bool)
      requires Sound(Snapshot())
      modifies this
      ensures var r := Call(old(Snapshot()), config, x); Snapshot() == r.s && sent == r.ends
    {
      ghost var r := Call(Snapshot(), config, x);
      if !enabled { state := NotEnabled; }
      while true
        invariant Sound(Snapshot())
        invariant var q := Loop(Snapshot(), config, x); q.s == r.s && q.ends == r.ends
        decreases Rank(state, lastState == state)
      {
        hide Iterate;
        sent := Pass(x);
        if sent { return; }
        if lastState == state { break; }
      }
    }

    /** md_pdelay_req_sm_txts: only for the request just sent. */
    method TxTs(ts: uint64, sequenceId: uint16, x: Ambient)
      requires Sound(Snapshot())
      modifies this
      ensures Snapshot() == Step(old(Snapshot()), config, TxTimestamp(ts, sequenceId, x)).s
    {
      if state != Send && state != InitialSend { return; }
      if sequenceId != pdelayReqSequenceId { return; }
      m := m.(t1 := ts);
      rcvdMDTimestampReceive := true;
      var sent := Run(x);
    }

    /** md_pdelay_req_sm_recv_resp: t4 is taken after the machine ran. */
    method RecvResp(resp: Resp, ts: uint64, x: Ambient)
      requires Sound(Snapshot())
      modifies this
      ensures Snapshot() == Step(old(Snapshot()), config, RespArrives(resp, ts, x)).s
    {
      hide Call;
      rcvdPdelayResp, recPdelayResp := true, Some(resp);
      m := m.(t2 := resp.receipt);
      var sent := Run(x);
      m := m.(t4 := ts);
    }

    /** md_pdelay_req_sm_recv_respfup */
    method RecvRespFup(fup: RespFup, x: Ambient)
      requires Sound(Snapshot())
      modifies this
      ensures Snapshot() == Step(old(Snapshot()), config, FupArrives(fup, x)).s
    {
      rcvdPdelayRespFollowUp, recPdelayRespFup := true, Some(fup);
      m := m.(t3 := fup.origin);
      var sent := Run(x);
    }
  }

  // ------------------------------------------------------------------ every order of events

  datatype Event =
    | Timeout(x: Ambient)
    | TxTimestamp(ts: uint64, sequenceId: uint16, x: Ambient)
    | RespArrives(resp: Resp, ts: uint64, x: Ambient)
    | FupArrives(fup: RespFup, x: Ambient)
    | LinkDown
    | Enable(on: bool)
    | Configure(computeRatio: bool, computeDelay: bool)

  /** A message is noted before the machine runs. */
  function Noted(s: Req, ev: Event): (r: Req)
    ensures r.counters == s.counters
  {
    match ev
    case TxTimestamp(ts, id, x) => s.(m := s.m.(t1 := ts), rcvdTimestamp := true)
    case RespArrives(resp, ts, x) => s.(rcvdResp := true, resp := Some(resp), m := s.m.(t2 := resp.receipt))
    case FupArrives(fup, x) => s.(rcvdFup := true, fup := Some(fup), m := s.m.(t3 := fup.origin))
    case _ => s
  }

  /** One event: timestamps are taken only for the request just sent, and t4 only after the machine ran. */
  function Step(s: Req, c: Config, ev: Event): Passed {
    match ev
    case Timeout(x) => Call(s, c, x)
    case TxTimestamp(ts, id, x) =>
      if (s.state == Send || s.state == InitialSend) && id == s.sequenceId
      then Call(Noted(s, ev), c, x) else Passed(s, false, [])
    case RespArrives(resp, ts, x) =>
      var r := Call(Noted(s, ev), c, x);
      r.(s := r.s.(m := r.s.m.(t4 := ts)))
    case FupArrives(fup, x) => Call(Noted(s, ev), c, x)
    case LinkDown => Passed(s.(enabled := false, counters := s.counters.(asCapable := false)), false, [A.WentDown])
    case Enable(on) => Passed(s.(enabled := on), false, [])
    case Configure(ratio, delay) => Passed(s.(computeRatio := ratio, computeDelay := delay), false, [])
  }

  lemma OneApplied(l: A.Limits, c: A.Counters, a: A.Act)
    ensures A.Applied(l, c, [a]) == A.Apply(l, c, a)
    ensures A.Applied(l, c, []) == c
  {
    assert [a][..0] == [];
  }

  /** What a pass does to the counters is what its acts say. */
  ghost predicate Accounted(c: Config, s: Req, r: Passed) {
    r.s.counters == A.Applied(c.limits, s.counters, r.acts)
  }

  lemma ResetAccounted(s: Req, change: bool, c: Config, x: Ambient)
    requires s.state == s.lastState == Reset
    ensures Accounted(c, s, ResetPass(s, change, c, x))
  {
    hide A.AfterReset;
    hide Elapsed;
    hide ResetProc;
    hide ResetCondition;
    hide Ceasing;
    var l := c.limits;
    var u := if change then ResetProc(s, l) else s;
    var f := if change then [A.ResetEntered] else [];
    var g := if Ceasing(u, l) && Elapsed(u, x.now, CEASE_TIME) then [A.AnswersForgotten] else [];
    OneApplied(l, s.counters, A.ResetEntered);
    assert A.Applied(l, s.counters, f) == u.counters;
    OneApplied(l, u.counters, A.AnswersForgotten);
    A.AppliedMore(l, s.counters, f, g);
  }

  lemma InitialSendAccounted(s: Req, change: bool, c: Config, x: Ambient)
    requires s.state == s.lastState == InitialSend
    ensures Accounted(c, s, InitialSendPass(s, change, c, x))
  {
    hide Elapsed;
    OneApplied(c.limits, s.counters, A.Started);
  }

  lemma RespFollowUpAccounted(s: Req, change: bool, c: Config, x: Ambient)
    requires s.state == s.lastState == WaitingForRespFollowUp
    ensures Accounted(c, s, RespFollowUpPass(s, change, c, x))
  {
    hide Minus;
    hide Elapsed;
    hide A.Applied;
    OneApplied(c.limits, s.counters, A.AnsweredTwice);
  }

  lemma IntervalTimerAccounted(s: Req, change: bool, c: Config, x: Ambient)
    requires s.state == s.lastState == WaitingForIntervalTimer
    ensures Accounted(c, s, IntervalTimerPass(s, change, c, x))
  {
    hide A.AfterExchange;
    hide RatioNow;
    hide DelayNow;
    hide Measures;
    hide Minus;
    OneApplied(c.limits, s.counters, ExchangeAct(s, c));
  }

  lemma IterateAccounted(s: Req, c: Config, x: Ambient)
    ensures Accounted(c, s, Iterate(s, c, x))
  {
    hide InitialSendPass;
    hide ResetPass;
    hide SendPass;
    hide RespPass;
    hide RespFollowUpPass;
    hide IntervalTimerPass;
    hide LeadsOn;
    hide A.Applied;
    var change := s.lastState != s.state;
    var t: Req := s.(lastState := s.state);
    var r := Iterate(s, c, x);
    OneApplied(c.limits, s.counters, A.Started);
    assert t.counters == s.counters;
    hide Sound;
    if s.state == InitialSend {
      InitialSendAccounted(t, change, c, x);
    } else if s.state == Reset {
      ResetAccounted(t, change, c, x);
    } else if s.state == WaitingForRespFollowUp {
      RespFollowUpAccounted(t, change, c, x);
    } else if s.state == WaitingForIntervalTimer {
      IntervalTimerAccounted(t, change, c, x);
    } else {
      assert r.acts == [] && r.s.counters == s.counters;
    }
  }

  lemma {:induction false} LoopAccounted(s: Req, c: Config, x: Ambient)
    ensures Accounted(c, s, Loop(s, c, x))
    decreases Rank(s.state, Done(s))
  {
    hide Iterate;
    IterateAccounted(s, c, x);
    var r := Iterate(s, c, x);
    if !r.ends && !Done(r.s) {
      LoopAccounted(r.s, c, x);
      A.AppliedMore(c.limits, s.counters, r.acts, Loop(r.s, c, x).acts);
    }
  }

  lemma CallAccounted(s: Req, c: Config, x: Ambient)
    ensures Accounted(c, s, Call(s, c, x))
  {
    LoopAccounted(if s.enabled then s else s.(state := NotEnabled), c, x);
  }

  lemma StepAccounted(s: Req, c: Config, ev: Event)
    ensures Accounted(c, s, Step(s, c, ev))
  {
    hide Call;
    hide Noted;
    OneApplied(c.limits, s.counters, A.WentDown);
    match ev
    case Timeout(x) => CallAccounted(s, c, x);
    case TxTimestamp(ts, id, x) => CallAccounted(Noted(s, ev), c, x);
    case RespArrives(resp, ts, x) => CallAccounted(Noted(s, ev), c, x);
    case FupArrives(fup, x) => CallAccounted(Noted(s, ev), c, x);
    case _ =>
  }

  /** The machine after the first `n` events. */
  function After(c: Config, evs: seq<Event>, n: nat): Req
    requires n <= |evs|
  {
    if n == 0 then INITIAL else Step(After(c, evs, n - 1), c, evs[n - 1]).s
  }

  /** What happened for asCapable in the first `n` events. */
  function History(c: Config, evs: seq<Event>, n: nat): seq<A.Act>
    requires n <= |evs|
  {
    if n == 0 then [] else History(c, evs, n - 1) + Step(After(c, evs, n - 1), c, evs[n - 1]).acts
  }

  lemma {:induction false} HistoryAccounts(c: Config, evs: seq<Event>, n: nat)
    requires n <= |evs|
    ensures After(c, evs, n).counters == A.After(c.limits, History(c, evs, n), |History(c, evs, n)|)
  {
    hide Step;
    hide A.Applied;
    hide A.Apply;
    if n > 0 {
      HistoryAccounts(c, evs, n - 1);
      var s := After(c, evs, n - 1);
      StepAccounted(s, c, evs[n - 1]);
      A.AfterMore(c.limits, History(c, evs, n - 1), Step(s, c, evs[n - 1]).acts);
    }
  }

  /** Over every order of events, asCapable holds exactly when the exchanges and resets so far earned it,
      and a rate ratio is valid exactly when they left one known. */
  lemma CapableIsEarned(c: Config, evs: seq<Event>, n: nat)
    requires n <= |evs|
    ensures var h, d := History(c, evs, n), After(c, evs, n).counters;
            (d.asCapable <==> A.Earned(c.limits, h, |h|)) && (d.ratioValid <==> A.RatioKnown(c.limits, h, |h|))
  {
    HistoryAccounts(c, evs, n);
    A.CapableIffEarned(c.limits, History(c, evs, n), |History(c, evs, n)|);
  }
}

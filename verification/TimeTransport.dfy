/** Transport of the grandmaster's time over any number of systems (md_sync_receive_sm.c,
    port_sync_sync_receive_sm.c, port_sync_sync_send_sm.c, md_sync_send_sm.c, clock_slave_sync_sm.c).
    Integers are rounded as the program rounds them; double precision arithmetic is exact. */
module TimeTransport {
  import opened Words
  import opened Priority
  import opened BmcsState
  import opened RateRatio
  import opened SyncPairing

  const SEC_NS := 1_000_000_000
  const TWO_POW_16: real := 65536.0
  const TWO_POW_64 := 0x1_0000_0000_0000_0000

  /** The measured link: delay in nanoseconds of the neighbour's clock, and the neighbour's rate
      relative to the local one. */
  datatype PortDelay = PortDelay(propDelay: nat, rateRatio: Positive, asymmetry: int)

  type Positive = x: real | x > 0.0 witness 1.0

  /** A record that carries time: the origin timestamp, what has been added to it, the ratio
      of the grandmaster's rate to the local one, and the local time that the sum refers to. */
  datatype MDSync = MDSync(
    originSeconds: nat, originNanoseconds: nat, correction: nat, rateRatio: real, upstreamTxTime: int)

  // ------------------------------------------------------------------ the computations

  /** A correction field, in units of 2^-16 ns, as whole nanoseconds of 64 unsigned bits. */
  function Shifted(correction: int): nat { (correction % TWO_POW_64) / 0x1_0000 }

  /** setMDSyncReceive; a two-step Sync and its Follow_Up both carry a correction. */
  function SetMDSyncReceive(p: Pair, d: PortDelay): MDSync {
    var ratio := FromScaled(p.fup.cumulativeScaledRateOffset);
    MDSync(p.fup.originSeconds, p.fup.originNanoseconds,
           Shifted(p.sync.correction) + Shifted(p.fup.correction), ratio,
           Truncated(p.rts as real - d.propDelay as real / d.rateRatio - d.asymmetry as real / ratio))
  }

  /** received_sync */
  function ReceivedSync(m: MDSync, d: PortDelay): MDSync {
    m.(rateRatio := m.rateRatio + (d.rateRatio - 1.0))
  }

  function ToInt32(n: int): int32 { (n + 0x8000_0000) % 0x1_0000_0000 - 0x8000_0000 }

  /** Seconds and nanoseconds once `carry` nanoseconds are added, with one carry at most. */
  function AddToOrigin(seconds: nat, nanoseconds: nat, carry: int): (nat, nat) {
    var ns := (nanoseconds + carry) % 0x1_0000_0000;
    if ns >= SEC_NS then ((seconds + 1) % 0x1_0000_0000_0000, ns - SEC_NS) else (seconds, ns)
  }

  /** Correction field of the Follow_Up that a system which is not grandmaster sends. */
  function EgressCorrection(m: MDSync, syncTs: nat): int {
    var residence := ((syncTs - m.upstreamTxTime) % TWO_POW_64 * 0x1_0000) % TWO_POW_64;
    Truncated((m.correction * 0x1_0000) as real + m.rateRatio * residence as real)
  }

  /** setFollowUp_txFollowUp */
  function SetFollowUp(m: MDSync, weAreGm: bool, syncTs: nat, sequenceId: uint16): FupMsg {
    var (s, ns) := AddToOrigin(m.originSeconds, m.originNanoseconds, if weAreGm then syncTs - m.upstreamTxTime else 0);
    FupMsg(sequenceId, if weAreGm then 0 else EgressCorrection(m, syncTs), s, ns, ToInt32(ScaledOffset(m.rateRatio)))
  }

  /** The link delay in the grandmaster's time, and in local time, as a slave adds them. */
  function DelayInGm(m: MDSync, d: PortDelay): real {
    d.propDelay as real * (m.rateRatio / d.rateRatio) + d.asymmetry as real
  }

  function DelayHere(m: MDSync, d: PortDelay): real
    requires m.rateRatio != 0.0
  {
    d.propDelay as real / d.rateRatio + d.asymmetry as real / m.rateRatio
  }

  /** syncReceiptTime, in nanoseconds, and syncReceiptLocalTime (send_sync_indication_proc). */
  function SyncIndication(m: MDSync, d: PortDelay): (int, int)
    requires m.rateRatio != 0.0
  {
    var nsec := m.originSeconds % 0x1_0000_0000 * SEC_NS + m.originNanoseconds + m.correction;
    (Truncated(nsec as real + DelayInGm(m, d)), Truncated(m.upstreamTxTime as real + DelayHere(m, d)))
  }

  lemma ReceivedRatioPositive(f: FupMsg)
    ensures FromScaled(f.cumulativeScaledRateOffset) > 0.0
  {
    assert f.cumulativeScaledRateOffset as real / TWO_POW_41 >= -TWO_POW_31 / TWO_POW_41;
  }

  lemma TruncatedDifference(x: real, y: real)
    ensures Near(Truncated(x - y) as real - (Truncated(x) as real - y), 2.0)
  {}

  /** An asymmetry of the link, in the grandmaster's time, puts the time at which the neighbour is taken to have
      sent that much earlier, in local time and up to rounding; a slave adds the same to both its times. */
  lemma AsymmetryIsAccounted(p: Pair, m: MDSync, d: PortDelay)
    requires m.rateRatio != 0.0
    ensures var none, ratio := d.(asymmetry := 0), FromScaled(p.fup.cumulativeScaledRateOffset);
            var r, r0 := SetMDSyncReceive(p, d), SetMDSyncReceive(p, none);
            && r == r0.(upstreamTxTime := r.upstreamTxTime)
            && (ratio > 0.0 ==>
                  Near(r.upstreamTxTime as real - (r0.upstreamTxTime as real - d.asymmetry as real / ratio), 2.0))
            && DelayInGm(m, d) == DelayInGm(m, none) + d.asymmetry as real
            && DelayHere(m, d) == DelayHere(m, none) + d.asymmetry as real / m.rateRatio
  {
    var ratio := FromScaled(p.fup.cumulativeScaledRateOffset);
    if ratio > 0.0 {
      var x := p.rts as real - d.propDelay as real / d.rateRatio;
      assert 0 as real / ratio == 0.0;
      TruncatedDifference(x, d.asymmetry as real / ratio);
    }
    assert 0 as real / m.rateRatio == 0.0;
  }

  // ------------------------------------------------------------------ the records, filled in place

  /** The records of one port on the way of a Sync through a system. */
  class SyncRecords {
    var mdSyncReceive: MDSync
    var portSyncSync: MDSync
    var mdSyncSend: MDSync
    var syncReceiptTime: (int, int)         // seconds and nanoseconds
    var syncReceiptLocalTime: int

    constructor ()
    {
      var none := MDSync(0, 0, 0, 0.0, 0);
      mdSyncReceive, portSyncSync, mdSyncSend := none, none, none;
      syncReceiptTime, syncReceiptLocalTime := (0, 0), 0;
    }

    method FillMDSyncReceive(p: Pair, d: PortDelay)
      modifies this`mdSyncReceive
      ensures mdSyncReceive == SetMDSyncReceive(p, d)
    {
      mdSyncReceive := mdSyncReceive.(correction := Shifted(p.sync.correction));
      mdSyncReceive := mdSyncReceive.(correction := mdSyncReceive.correction + Shifted(p.fup.correction));
      mdSyncReceive := mdSyncReceive.(originSeconds := p.fup.originSeconds, originNanoseconds := p.fup.originNanoseconds);
      mdSyncReceive := mdSyncReceive.(rateRatio := FromScaled(p.fup.cumulativeScaledRateOffset));
      ReceivedRatioPositive(p.fup);
      mdSyncReceive := mdSyncReceive.(upstreamTxTime := Truncated(
        p.rts as real - d.propDelay as real / d.rateRatio - d.asymmetry as real / mdSyncReceive.rateRatio));
    }

    method FillPortSyncSync(d: PortDelay)
      modifies this`portSyncSync
      ensures portSyncSync == ReceivedSync(mdSyncReceive, d)
    {
      var rateRatio := mdSyncReceive.rateRatio;
      rateRatio := rateRatio + (d.rateRatio - 1.0);
      portSyncSync := mdSyncReceive.(rateRatio := rateRatio);
    }

    /** send_md_sync_proc and setMDSync: what a master port sends is what was received. */
    method FillMDSyncSend()
      modifies this`mdSyncSend
      ensures mdSyncSend == portSyncSync
    {
      mdSyncSend := mdSyncSend.(originSeconds := portSyncSync.originSeconds,
                                originNanoseconds := portSyncSync.originNanoseconds);
      mdSyncSend := mdSyncSend.(correction := portSyncSync.correction, rateRatio := portSyncSync.rateRatio);
      mdSyncSend := mdSyncSend.(upstreamTxTime := portSyncSync.upstreamTxTime);
    }

    method FollowUp(weAreGm: bool, syncTs: nat, sequenceId: uint16) returns (f: FupMsg)
      ensures f == SetFollowUp(mdSyncSend, weAreGm, syncTs, sequenceId)
    {
      var m := mdSyncSend;
      var correction, cf := 0, 0;
      if weAreGm {
        cf := syncTs - m.upstreamTxTime;
      } else {
        correction := EgressCorrection(m, syncTs);
      }
      var seconds, ns := m.originSeconds, (m.originNanoseconds + cf) % 0x1_0000_0000;
      if ns >= SEC_NS {
        ns := ns - SEC_NS;
        seconds := (seconds + 1) % 0x1_0000_0000_0000;
      }
      f := FupMsg(sequenceId, correction, seconds, ns, ToInt32(ScaledOffset(m.rateRatio)));
    }

    /** send_sync_indication_proc for a Sync that came over a link. */
    method SendSyncIndication(d: PortDelay)
      requires portSyncSync.rateRatio != 0.0
      modifies this`syncReceiptTime, this`syncReceiptLocalTime
      ensures var (nsec, local) := SyncIndication(portSyncSync, d);
              && syncReceiptTime.0 * SEC_NS + syncReceiptTime.1 == nsec && 0 <= syncReceiptTime.1 < SEC_NS
              && syncReceiptLocalTime == local
    {
      var m := portSyncSync;
      var nsec := m.originSeconds % 0x1_0000_0000 * SEC_NS + m.originNanoseconds + m.correction;
      nsec := Truncated(nsec as real + DelayInGm(m, d));
      syncReceiptTime := (nsec / SEC_NS, nsec % SEC_NS);
      syncReceiptLocalTime := Truncated(m.upstreamTxTime as real + DelayHere(m, d));
    }
  }

  // ------------------------------------------------------------------ the grandmaster's carry

  /** The one carry suffices exactly while the sum stays below two seconds, so for every correction
      below one; the time sent is then the origin plus the correction. */
  lemma OriginCarry(seconds: nat, nanoseconds: nat, carry: nat)
    requires seconds < 0xFFFF_FFFF_FFFF && nanoseconds < SEC_NS && nanoseconds + carry < 0x1_0000_0000
    ensures var (s, ns) := AddToOrigin(seconds, nanoseconds, carry);
            && s * SEC_NS + ns == seconds * SEC_NS + nanoseconds + carry
            && (ns < SEC_NS <==> nanoseconds + carry < 2 * SEC_NS)
            && (carry < SEC_NS ==> ns < SEC_NS)
  {}

  // ------------------------------------------------------------------ true time

  /** The grandmaster's time at reading `x` of a clock is `offset + rate * x`. */
  datatype Clock = Clock(offset: real, rate: real)

  function GmTime(c: Clock, x: real): real { c.offset + c.rate * x }

  /** The time that a Follow_Up says its Sync was sent at. */
  function Told(f: FupMsg): real {
    (f.originSeconds * SEC_NS + f.originNanoseconds) as real + f.correction as real / TWO_POW_16
  }

  /** One system on the way: its clock, the link it receives on, and when it received and sent. */
  datatype Hop = Hop(clock: Clock, delay: PortDelay, rts: nat, syncTs: nat)

  /** The link delay in local time. */
  function LocalDelay(d: PortDelay): (r: real)
    ensures r >= 0.0
  {
    d.propDelay as real / d.rateRatio
  }

  /** The local time at which the neighbour sent, as this system works it out. */
  function Departure(h: Hop): real { h.rts as real - LocalDelay(h.delay) }

  function SyncOf(sequenceId: uint16): SyncMsg {
    SyncMsg(sequenceId, true, 0, PortIdentity(0, 0), 0, 0)
  }

  /** What a system holds of a Sync received with Follow_Up `f`. */
  function Held(f: FupMsg, h: Hop): MDSync {
    ReceivedSync(SetMDSyncReceive(Pair(SyncOf(f.sequenceId), h.rts, f), h.delay), h.delay)
  }

  /** What a system sends on a master port once it holds a Sync received with `f`. */
  ghost predicate Sends(f: FupMsg, h: Hop, g: FupMsg) {
    exists sequenceId :: g == SetFollowUp(Held(f, h), false, h.syncTs, sequenceId)
  }

  /** A Sync on its way: `fs[k + 1]` is what system `hops[k]` makes of `fs[k]`. */
  ghost predicate Journey(fs: seq<FupMsg>, hops: seq<Hop>) {
    |fs| == |hops| + 1 && forall k :: 0 <= k < |hops| ==> Sends(fs[k], hops[k], fs[k + 1])
  }

  // ------------------------------------------------------------------ one system

  lemma RatioCost(ratio: real, rate: real, d: real, eta: real, t: real)
    requires Near(ratio - rate, eta) && 0.0 <= d <= t
    ensures Near(ratio * d - rate * d, eta * t)
  {
    MulBounds(ratio - rate, d, eta, t);
    assert (ratio - rate) * d == ratio * d - rate * d;
  }

  lemma ClockAdvances(c: Clock, x: real, s: real, d: real, f: real)
    requires s == x + d - f && 0.0 <= f <= 1.0 && 0.0 < c.rate <= 2.0
    ensures 0.0 <= GmTime(c, x) + c.rate * d - GmTime(c, s) <= 2.0
  {
    MulMono(c.rate, f, 2.0, 1.0);
    assert c.rate * s == c.rate * x + c.rate * d - c.rate * f;
  }

  /** The rounding of one system, in sums: `told` is the time received, with its correction rounded
      down to `cf`; `sent` is the correction sent, `passed` and `exact` the residence in the
      grandmaster's time as computed and as it was. */
  lemma HopSum(po: real, received: real, cf: real, passed: real, exact: real, departed: real, gmX: real, gmS: real,
               sent: real, err: real, cost: real, mu: real)
    requires received - 1.0 < cf <= received && cf + passed - 1.0 < sent <= cf + passed
    requires Near(passed - exact, cost) && 0.0 <= gmX + exact - gmS <= 2.0
    requires Near(po + received - departed, err) && Near(gmX - departed, mu)
    ensures Near(po + sent - gmS, err + cost + mu + 4.0)
  {}

  lemma HopError(po: real, received: real, cf: nat, ratio: real, c: Clock, departed: real, x: real, u: int,
                 s: nat, sent: real, err: real, eta: real, tau: real, mu: real)
    requires received - 1.0 < cf as real <= received
    requires u as real <= x < u as real + 1.0
    requires 0.0 <= s as real - x <= tau
    requires cf as real + ratio * (s - u) as real - 1.0 < sent <= cf as real + ratio * (s - u) as real
    requires 0.0 < c.rate <= 2.0 && Near(ratio - c.rate, eta)
    requires Near(po + received - departed, err) && Near(GmTime(c, x) - departed, mu)
    ensures Near(po + sent - GmTime(c, s as real), err + eta * (tau + 1.0) + mu + 4.0)
  {
    hide GmTime;
    var d, f := (s - u) as real, x - u as real;
    ClockAdvances(c, x, s as real, d, f);
    RatioCost(ratio, c.rate, d, eta, tau + 1.0);
    HopSum(po, received, cf as real, ratio * d, c.rate * d, departed, GmTime(c, x), GmTime(c, s as real),
           sent, err, eta * (tau + 1.0), mu);
  }

  /** The neighbour rate ratio is exact, and within `eps` of one. */
  predicate GoodRate(h: Hop, prev: Clock, eps: real) {
    Near(h.delay.rateRatio - 1.0, eps) && h.clock.rate == prev.rate * h.delay.rateRatio && 0.0 < h.clock.rate <= 2.0
  }

  /** The departure time that the system works out is off by at most `mu` of the grandmaster's time,
      it holds a Sync for at most `tau`, and its link has no asymmetry. */
  predicate GoodTimes(h: Hop, prev: Clock, prevTs: nat, tau: real, mu: real) {
    && h.delay.asymmetry == 0 && Departure(h) >= 0.0
    && Near(GmTime(h.clock, Departure(h)) - GmTime(prev, prevTs as real), mu)
    && 0.0 <= h.syncTs as real - Departure(h) <= tau
  }

  /** What a grandmaster sends: its own time, at the reading of its clock when the Sync left. */
  predicate FromGrandmaster(f: FupMsg, c: Clock, syncTs: nat) {
    && c.rate == 1.0 && Told(f) == GmTime(c, syncTs as real)
    && f.correction == 0 && f.cumulativeScaledRateOffset == ScaledOffset(1.0)
  }

  /** A grandmaster whose origin timestamp and local time were read at one instant. */
  lemma GrandmasterTellsTime(m: MDSync, syncTs: nat, sequenceId: uint16)
    requires m.originSeconds < 0xFFFF_FFFF_FFFF && m.originNanoseconds < SEC_NS && m.rateRatio == 1.0
    requires 0 <= syncTs - m.upstreamTxTime < SEC_NS
    ensures FromGrandmaster(SetFollowUp(m, true, syncTs, sequenceId),
                            Clock((m.originSeconds * SEC_NS + m.originNanoseconds - m.upstreamTxTime) as real, 1.0), syncTs)
    ensures SetFollowUp(m, true, syncTs, sequenceId).originNanoseconds < SEC_NS
  {
    OriginCarry(m.originSeconds, m.originNanoseconds, syncTs - m.upstreamTxTime);
  }

  /** Systems on the way, clocks and departures from the grandmaster's on: what is assumed of them. */
  datatype Way = Way(clock: Clock, ts: nat, hops: seq<Hop>, eps: real, tau: real, mu: real)
  {
    /** Clock and departure time of system `k`, the grandmaster being number 0. */
    function ClockAt(k: nat): Clock
      requires k <= |hops|
    {
      if k == 0 then clock else hops[k - 1].clock
    }

    function SentAt(k: nat): nat
      requires k <= |hops|
    {
      if k == 0 then ts else hops[k - 1].syncTs
    }

    function Ratios(k: nat): seq<real>
      requires k <= |hops|
    {
      seq(k, i requires 0 <= i < k => hops[i].delay.rateRatio)
    }

    predicate Good() {
      && eps >= 0.0 && tau + 1.0 < 281474976710656.0 && FewHops(|hops|, eps)
      && (forall k :: 0 <= k < |hops| ==> GoodRate(hops[k], ClockAt(k), eps))
      && (forall k :: 0 <= k < |hops| ==> GoodTimes(hops[k], ClockAt(k), SentAt(k), tau, mu))
    }
  }

  /** Few enough systems for the rate offset to fit its 32 bits. */
  predicate FewHops(n: nat, eps: real) {
    n as real * eps + n as real / TWO_POW_41 < TWO_POW_31 / TWO_POW_41
  }

  /** No correction field overflows. */
  predicate NoOverflow(fs: seq<FupMsg>) { forall k :: 0 <= k < |fs| ==> fs[k].correction < TWO_POW_64 }

  /** The error after `n` systems. */
  function TransportError(n: nat, eps: real, tau: real, mu: real): real {
    if n == 0 then 0.0
    else TransportError(n - 1, eps, tau, mu) + RatioError(eps, n) * (tau + 1.0) + mu + 4.0
  }

  // ------------------------------------------------------------------ what one system does to the message

  lemma Whole(x: nat)
    requires x < TWO_POW_64
    ensures x as real / TWO_POW_16 - 1.0 < Shifted(x) as real <= x as real / TWO_POW_16
  {
    assert x == Shifted(x) * 0x1_0000 + x % 0x1_0000;
  }

  /** Residence in the units of the correction field, without overflow. */
  lemma Egress(m: MDSync, syncTs: nat)
    requires 0 <= syncTs - m.upstreamTxTime < 0x1_0000_0000_0000 && m.rateRatio >= 0.0
    ensures var exact := m.correction as real + m.rateRatio * (syncTs - m.upstreamTxTime) as real;
            && exact - 1.0 / TWO_POW_16 < EgressCorrection(m, syncTs) as real / TWO_POW_16 <= exact
            && EgressCorrection(m, syncTs) >= 0
  {
    var d := syncTs - m.upstreamTxTime;
    assert d % TWO_POW_64 * 0x1_0000 % TWO_POW_64 == d * 0x1_0000;
    var y := m.rateRatio * d as real;
    assert m.rateRatio * (d * 0x1_0000) as real == y * TWO_POW_16;
    assert y >= 0.0 by { MulMono(0.0, 0.0, m.rateRatio, d as real); }
  }

  lemma HeldParts(f: FupMsg, h: Hop)
    requires h.delay.asymmetry == 0 && 0 <= f.correction
    ensures var m := Held(f, h);
            && m.originSeconds == f.originSeconds && m.originNanoseconds == f.originNanoseconds
            && m.correction == Shifted(f.correction)
            && m.rateRatio == FromScaled(f.cumulativeScaledRateOffset) + (h.delay.rateRatio - 1.0)
            && m.upstreamTxTime == Truncated(Departure(h))
  {
    ReceivedRatioPositive(f);
    assert 0.0 / FromScaled(f.cumulativeScaledRateOffset) == 0.0;
  }

  lemma HeldFields(f: FupMsg, h: Hop)
    ensures var m := Held(f, h);
            && m.originSeconds == f.originSeconds && m.originNanoseconds == f.originNanoseconds
            && (0 <= f.correction ==> m.correction == Shifted(f.correction))
  {
    hide FromScaled;
    hide Truncated;
  }

  lemma SentParts(f: FupMsg, h: Hop, g: FupMsg)
    requires Sends(f, h, g) && f.originNanoseconds < SEC_NS && h.delay.asymmetry == 0 && 0 <= f.correction
    ensures g.originSeconds == f.originSeconds && g.originNanoseconds == f.originNanoseconds
    ensures g.correction == EgressCorrection(Held(f, h), h.syncTs)
    ensures g.cumulativeScaledRateOffset == ToInt32(ScaledOffset(Held(f, h).rateRatio))
  {
    HeldFields(f, h);
    hide Held;
    hide EgressCorrection;
    hide ScaledOffset;
    hide ToInt32;
  }

  lemma HopNumbers(po: real, received: nat, m: MDSync, c: Clock, departed: real, x: real, s: nat,
                   err: real, eta: real, tau: real, mu: real)
    requires received < TWO_POW_64 && m.correction == Shifted(received)
    requires x >= 0.0 && m.upstreamTxTime == Truncated(x)
    requires 0.0 <= s as real - x <= tau && tau + 1.0 < 281474976710656.0
    requires 0.0 < c.rate <= 2.0 && m.rateRatio > 0.0 && Near(m.rateRatio - c.rate, eta)
    requires Near(po + received as real / TWO_POW_16 - departed, err) && Near(GmTime(c, x) - departed, mu)
    ensures EgressCorrection(m, s) >= 0
    ensures Near(po + EgressCorrection(m, s) as real / TWO_POW_16 - GmTime(c, s as real),
                 err + eta * (tau + 1.0) + mu + 4.0)
  {
    hide GmTime;
    hide EgressCorrection;
    hide Shifted;
    Whole(received);
    Egress(m, s);
    HopError(po, received as real / TWO_POW_16, m.correction, m.rateRatio, c, departed, x,
             m.upstreamTxTime, s, EgressCorrection(m, s) as real / TWO_POW_16, err, eta, tau, mu);
  }

  /** One more system, in terms of the time told. */
  lemma OneHop(f: FupMsg, c: Clock, ts: nat, h: Hop, g: FupMsg, err: real, eta: real, tau: real, mu: real)
    requires Sends(f, h, g) && f.originNanoseconds < SEC_NS && 0 <= f.correction < TWO_POW_64
    requires GoodTimes(h, c, ts, tau, mu) && tau + 1.0 < 281474976710656.0 && 0.0 < h.clock.rate <= 2.0
    requires Held(f, h).rateRatio > 0.0 && Near(Held(f, h).rateRatio - h.clock.rate, eta)
    requires Near(Told(f) - GmTime(c, ts as real), err)
    ensures g.correction >= 0
    ensures Near(Told(g) - GmTime(h.clock, h.syncTs as real), err + eta * (tau + 1.0) + mu + 4.0)
  {
    hide Held;
    hide GmTime;
    hide Departure;
    hide EgressCorrection;
    hide Shifted;
    SentParts(f, h, g);
    HeldParts(f, h);
    HopNumbers((f.originSeconds * SEC_NS + f.originNanoseconds) as real, f.correction, Held(f, h), h.clock,
               GmTime(c, ts as real), Departure(h), h.syncTs, err, eta, tau, mu);
  }

  // ------------------------------------------------------------------ any number of systems

  lemma FewerHops(n: nat, m: nat, eps: real)
    requires eps >= 0.0 && m <= n && FewHops(n, eps)
    ensures FewHops(m, eps)
  {
    var a, b, d := n as real * eps, m as real * eps, (n - m) as real;
    assert a - b == d * eps && d * eps >= 0.0;
  }

  /** While the deviations add up to little, the ratio in use is positive and fits its 32 bits. */
  lemma RatioInUse(n: seq<real>, eps: real)
    requires eps >= 0.0 && Within(n, eps) && FewHops(|n|, eps)
    ensures Accumulated(n) > 0.0
    ensures ToInt32(ScaledOffset(Accumulated(n))) == ScaledOffset(Accumulated(n))
  {
    OffsetFits(n, eps);
    var x := (Accumulated(n) - 1.0) * TWO_POW_41;
    assert x > -TWO_POW_31 - 1.0;
  }

  lemma RatiosPrefix(w: Way, k: nat)
    requires k < |w.hops|
    ensures w.Ratios(k + 1)[..k] == w.Ratios(k) && w.Ratios(k + 1)[k] == w.hops[k].delay.rateRatio
  {}

  lemma RatiosWithin(w: Way, k: nat)
    requires w.Good() && k <= |w.hops|
    ensures Within(w.Ratios(k), w.eps) && FewHops(k, w.eps)
  {
    hide GoodTimes;
    FewerHops(|w.hops|, k, w.eps);
    hide FewHops;
    var n := w.Ratios(k);
    forall i | 0 <= i < |n| ensures Near(n[i] - 1.0, w.eps) { assert GoodRate(w.hops[i], w.ClockAt(i), w.eps); }
  }

  lemma SystemAt(w: Way, k: nat)
    requires w.Good() && k < |w.hops|
    ensures GoodRate(w.hops[k], w.ClockAt(k), w.eps)
    ensures GoodTimes(w.hops[k], w.ClockAt(k), w.SentAt(k), w.tau, w.mu)
    ensures w.tau + 1.0 < 281474976710656.0
  {
    hide GoodRate;
    hide GoodTimes;
    hide FewHops;
  }

  lemma RateAt(w: Way, k: nat)
    requires w.Good() && k < |w.hops|
    ensures w.ClockAt(k + 1).rate == w.ClockAt(k).rate * w.hops[k].delay.rateRatio
  {
    SystemAt(w, k);
    hide Way.Good;
    hide GoodTimes;
  }

  lemma LastFactor(n: seq<real>, k: nat)
    requires |n| == k + 1
    ensures Product(n) == Product(n[..k]) * n[k] && Product([]) == 1.0
  {}

  /** The true ratio of a system is the product of the neighbour rate ratios on the way to it. */
  lemma {:induction false} RateIsProduct(w: Way, k: nat)
    requires w.Good() && w.clock.rate == 1.0 && k <= |w.hops|
    ensures w.ClockAt(k).rate == Product(w.Ratios(k))
  {
    hide Way.Good;
    hide Product;
    if k == 0 {
      LastFactor([1.0], 0);
      assert w.Ratios(0) == [];
    } else {
      RateAt(w, k - 1);
      LastFactor(w.Ratios(k), k - 1);
      RatiosPrefix(w, k - 1);
      RateIsProduct(w, k - 1);
    }
  }

  /** A journey that a grandmaster started, and what is known of its message at system `k`. */
  ghost predicate Started(w: Way, fs: seq<FupMsg>) {
    && w.Good() && Journey(fs, w.hops) && NoOverflow(fs)
    && FromGrandmaster(fs[0], w.clock, w.ts) && fs[0].originNanoseconds < SEC_NS
  }

  ghost predicate Carried(w: Way, fs: seq<FupMsg>, k: nat)
    requires k <= |w.hops| && k < |fs|
  {
    && fs[k].originNanoseconds < SEC_NS && fs[k].correction >= 0
    && fs[k].cumulativeScaledRateOffset == ScaledOffset(Accumulated(w.Ratios(k)))
    && Near(Told(fs[k]) - GmTime(w.ClockAt(k), w.SentAt(k) as real), TransportError(k, w.eps, w.tau, w.mu))
  }

  /** The ratio that system `k + 1` works with. */
  lemma RatioHeld(w: Way, fs: seq<FupMsg>, k: nat)
    requires w.Good() && k < |w.hops| && k < |fs| && Carried(w, fs, k)
    ensures Held(fs[k], w.hops[k]).rateRatio == Accumulated(w.Ratios(k + 1))
  {
    hide Held;
    hide Told;
    hide GmTime;
    hide Departure;
    hide ScaledOffset;
    hide FewHops;
    hide GoodRate;
    assert GoodTimes(w.hops[k], w.ClockAt(k), w.SentAt(k), w.tau, w.mu);
    HeldParts(fs[k], w.hops[k]);
    RatiosPrefix(w, k);
  }

  /** Its error, and that it is sent on. */
  lemma RatioUsed(w: Way, k: nat)
    requires w.Good() && w.clock.rate == 1.0 && k < |w.hops|
    ensures var ratio := Accumulated(w.Ratios(k + 1));
            && ratio > 0.0 && Near(ratio - w.hops[k].clock.rate, RatioError(w.eps, k + 1))
            && ToInt32(ScaledOffset(ratio)) == ScaledOffset(ratio)
  {
    hide RatioError;
    hide ScaledOffset;
    hide GoodTimes;
    hide GoodRate;
    hide Accumulated;
    hide Product;
    RatiosWithin(w, k + 1);
    hide FewHops;
    RatioInUse(w.Ratios(k + 1), w.eps);
    AccumulatedNearProduct(w.Ratios(k + 1), w.eps);
    RateIsProduct(w, k + 1);
  }

  lemma TimesLocal(h: Hop, c: Clock, ts: nat, tau: real, mu: real)
    requires GoodTimes(h, c, ts, tau, mu)
    ensures h.delay.asymmetry == 0
  {}

  lemma CarriedOn(w: Way, fs: seq<FupMsg>, k: nat)
    requires Started(w, fs) && k < |w.hops| && Carried(w, fs, k)
    ensures Carried(w, fs, k + 1)
  {
    hide Held;
    hide GmTime;
    hide Departure;
    hide ScaledOffset;
    hide Accumulated;
    hide EgressCorrection;
    hide RatioError;
    hide FewHops;
    hide Told;
    hide Sends;
    hide Way.Good;
    hide GoodTimes;
    RatioHeld(w, fs, k);
    RatioUsed(w, k);
    SystemAt(w, k);
    var h, c, err := w.hops[k], w.ClockAt(k), TransportError(k, w.eps, w.tau, w.mu);
    assert Sends(fs[k], h, fs[k + 1]);
    TimesLocal(h, c, w.SentAt(k), w.tau, w.mu);
    OneHop(fs[k], c, w.SentAt(k), h, fs[k + 1], err, RatioError(w.eps, k + 1), w.tau, w.mu);
    SentParts(fs[k], h, fs[k + 1]);
  }

  /** Any number of systems: the Follow_Up of system `k` tells the grandmaster's time at the moment
      its Sync left, up to an error that each system adds to by what rounding, its link and the
      accumulated ratio cost. */
  lemma {:induction false} TimeIsTransported(w: Way, fs: seq<FupMsg>, k: nat)
    requires Started(w, fs) && k <= |w.hops|
    ensures Carried(w, fs, k)
    ensures Near(Told(fs[k]) - GmTime(w.ClockAt(k), w.SentAt(k) as real), TransportError(k, w.eps, w.tau, w.mu))
  {
    hide GmTime;
    hide ScaledOffset;
    hide Told;
    hide FewHops;
    hide Sends;
    hide GoodTimes;
    if k > 0 {
      TimeIsTransported(w, fs, k - 1);
      CarriedOn(w, fs, k - 1);
    }
  }

  lemma LinearStep(n: nat, t: real, x: real, y: real, z: real)
    requires x <= y && t <= n as real * x + n as real * z
    ensures t + y + z <= (n + 1) as real * y + (n + 1) as real * z
  {
    assert n as real * (y - x) >= 0.0;
    assert n as real * (y - x) == n as real * y - n as real * x;
    assert (n + 1) as real * y == n as real * y + y;
    assert (n + 1) as real * z == n as real * z + z;
  }

  lemma HoldingCosts(a: real, b: real, t: real)
    requires a <= b && t >= 0.0
    ensures a * t <= b * t
  {
    assert (b - a) * t >= 0.0;
  }

  lemma ErrorStep(n: nat, eps: real, tau: real, mu: real)
    ensures TransportError(n + 1, eps, tau, mu) ==
            TransportError(n, eps, tau, mu) + RatioError(eps, n + 1) * (tau + 1.0) + (mu + 4.0)
    ensures TransportError(0, eps, tau, mu) == 0.0
  {
    hide RatioError;
  }

  /** The error grows in proportion to the number of systems, the ratio's error apart. */
  lemma {:induction false} ErrorIsLinear(n: nat, eps: real, tau: real, mu: real)
    requires eps >= 0.0 && tau >= 0.0
    ensures TransportError(n, eps, tau, mu) <= n as real * (RatioError(eps, n) * (tau + 1.0)) + n as real * (mu + 4.0)
  {
    hide TransportError;
    hide RatioError;
    if n == 0 {
      ErrorStep(0, eps, tau, mu);
    } else {
      ErrorStep(n - 1, eps, tau, mu);
      ErrorIsLinear(n - 1, eps, tau, mu);
      RatioErrorBound(eps, n - 1);
      HoldingCosts(RatioError(eps, n - 1), RatioError(eps, n), tau + 1.0);
      LinearStep(n - 1, TransportError(n - 1, eps, tau, mu), RatioError(eps, n - 1) * (tau + 1.0),
                 RatioError(eps, n) * (tau + 1.0), mu + 4.0);
    }
  }

  // ------------------------------------------------------------------ at the slave

  /** What a slave adds to a time of `n` nanoseconds, rounded. */
  function WithDelay(n: nat, ratio: real, delta: real): int { Truncated(n as real + ratio * delta) }

  function OriginOf(f: FupMsg): nat { f.originSeconds * SEC_NS + f.originNanoseconds }

  lemma DelayInGmTime(d: real, ratio: real, nrr: Positive)
    ensures d * (ratio / nrr) == ratio * (d / nrr)
  {}

  lemma ReadingAdvances(c: Clock, x: real, y: real, d: real)
    requires y == x + d
    ensures GmTime(c, y) == GmTime(c, x) + c.rate * d
  {}

  /** The rounding of a slave, in sums. */
  lemma SlaveSum(po: real, received: real, cf: real, passed: real, exact: real, departed: real, gmX: real, gmR: real,
                 nsec: real, err: real, cost: real, mu: real)
    requires received - 1.0 < cf <= received && nsec <= po + cf + passed < nsec + 1.0
    requires Near(passed - exact, cost) && gmR == gmX + exact
    requires Near(po + received - departed, err) && Near(gmX - departed, mu)
    ensures Near(nsec - gmR, err + cost + mu + 2.0)
  {}

  lemma RoundedDown(n: nat, x: real, r: int)
    requires x >= 0.0 && r == Truncated(n as real + x)
    ensures r as real <= n as real + x < r as real + 1.0
  {}

  function SlaveError(err: real, eta: real, lambda: real, mu: real): real { err + eta * lambda + mu + 2.0 }

  /** `delta` is the link delay in the slave's own time. */
  lemma SlaveNumbers(po: nat, received: nat, cf: nat, ratio: real, c: Clock, departed: real, rts: nat, delta: real,
                     nsec: int, err: real, eta: real, lambda: real, mu: real)
    requires received < TWO_POW_64 && cf == Shifted(received)
    requires 0.0 <= delta <= lambda && ratio > 0.0 && Near(ratio - c.rate, eta)
    requires Near(po as real + received as real / TWO_POW_16 - departed, err)
    requires Near(GmTime(c, rts as real - delta) - departed, mu)
    requires nsec == WithDelay(po + cf, ratio, delta)
    ensures Near(nsec as real - GmTime(c, rts as real), SlaveError(err, eta, lambda, mu))
  {
    hide GmTime;
    Whole(received);
    hide Shifted;
    var passed, exact := SlaveProducts(po + cf, ratio, c, rts, delta, nsec, eta, lambda);
    hide Truncated;
    hide Near;
    SlaveSum(po as real, received as real / TWO_POW_16, cf as real, passed, exact, departed,
             GmTime(c, rts as real - delta), GmTime(c, rts as real), nsec as real, err, eta * lambda, mu);
  }

  /** The link delay in the grandmaster's time, with the ratio in use and exactly. */
  lemma SlaveProducts(n: nat, ratio: real, c: Clock, rts: nat, delta: real, nsec: int, eta: real, lambda: real)
    returns (passed: real, exact: real)
    requires 0.0 <= delta <= lambda && ratio > 0.0 && Near(ratio - c.rate, eta)
    requires nsec == Truncated(n as real + ratio * delta)
    ensures Near(passed - exact, eta * lambda) && nsec as real <= n as real + passed < nsec as real + 1.0
    ensures GmTime(c, rts as real) == GmTime(c, rts as real - delta) + exact
  {
    hide GmTime;
    RatioCost(ratio, c.rate, delta, eta, lambda);
    ReadingAdvances(c, rts as real - delta, rts as real, delta);
    MulMono(0.0, 0.0, ratio, delta);
    RoundedDown(n, ratio * delta, nsec);
    passed, exact := ratio * delta, c.rate * delta;
  }

  lemma SlaveReading(rts: nat, delta: real, u: int)
    requires 0.0 <= delta <= rts as real && u == Truncated(rts as real - delta)
    ensures var local := Truncated(u as real + delta); local == rts || local == rts - 1
  {}

  /** What a slave computes when its link has no asymmetry. */
  lemma IndicationParts(m: MDSync, d: PortDelay)
    requires m.rateRatio > 0.0 && d.asymmetry == 0 && m.originSeconds < 0x1_0000_0000
    ensures var po := m.originSeconds * SEC_NS + m.originNanoseconds;
            SyncIndication(m, d) == (WithDelay(po + m.correction, m.rateRatio, LocalDelay(d)),
                                     Truncated(m.upstreamTxTime as real + LocalDelay(d)))
  {
    DelaysWithoutAsymmetry(m, d);
    var n := m.originSeconds * SEC_NS + m.originNanoseconds + m.correction;
    WithDelayIs(n, m.rateRatio, LocalDelay(d), DelayInGm(m, d));
    hide Truncated;
    hide DelayInGm;
    hide DelayHere;
    hide LocalDelay;
    hide WithDelay;
    assert m.originSeconds % 0x1_0000_0000 == m.originSeconds;
  }

  lemma WithDelayIs(n: nat, ratio: real, delta: real, added: real)
    requires added == ratio * delta
    ensures WithDelay(n, ratio, delta) == Truncated(n as real + added)
  {}

  lemma DelaysWithoutAsymmetry(m: MDSync, d: PortDelay)
    requires m.rateRatio > 0.0 && d.asymmetry == 0
    ensures DelayInGm(m, d) == m.rateRatio * LocalDelay(d) && DelayHere(m, d) == LocalDelay(d)
  {
    DelayInGmTime(d.propDelay as real, m.rateRatio, d.rateRatio);
    assert d.asymmetry as real / m.rateRatio == 0.0;
  }

  lemma SlaveLocalTime(f: FupMsg, h: Hop, m: MDSync)
    requires m == Held(f, h) && m.rateRatio > 0.0 && h.delay.asymmetry == 0 && Departure(h) >= 0.0
    requires f.originSeconds < 0x1_0000_0000 && 0 <= f.correction < TWO_POW_64
    ensures var local := SyncIndication(m, h.delay).1; local == h.rts || local == h.rts - 1
  {
    hide LocalDelay;
    hide Held;
    hide Shifted;
    hide SyncIndication;
    hide FromScaled;
    hide Truncated;
    HeldParts(f, h);
    IndicationParts(m, h.delay);
    SlaveReading(h.rts, LocalDelay(h.delay), m.upstreamTxTime);
  }

  lemma SlaveTimes(f: FupMsg, c: Clock, ts: nat, h: Hop, m: MDSync, err: real, eta: real, lambda: real, tau: real, mu: real)
    requires 0 <= f.correction < TWO_POW_64 && f.originSeconds < 0x1_0000_0000
    requires m == Held(f, h) && m.rateRatio > 0.0 && Near(m.rateRatio - h.clock.rate, eta)
    requires GoodTimes(h, c, ts, tau, mu) && LocalDelay(h.delay) <= lambda
    requires Near(Told(f) - GmTime(c, ts as real), err)
    ensures var (nsec, local) := SyncIndication(m, h.delay);
            && (local == h.rts || local == h.rts - 1)
            && Near(nsec as real - GmTime(h.clock, h.rts as real), SlaveError(err, eta, lambda, mu))
  {
    SlaveLocalTime(f, h, m);
    SlaveNsec(f, h, m);
    SlaveParts(f, c, ts, h, err, mu, tau);
    hide *;
    SlaveNumbers(OriginOf(f), f.correction, m.correction, m.rateRatio, h.clock,
                 GmTime(c, ts as real), h.rts, LocalDelay(h.delay), SyncIndication(m, h.delay).0, err, eta, lambda, mu);
  }

  lemma SlaveNsec(f: FupMsg, h: Hop, m: MDSync)
    requires m == Held(f, h) && m.rateRatio > 0.0 && h.delay.asymmetry == 0
    requires f.originSeconds < 0x1_0000_0000 && 0 <= f.correction < TWO_POW_64
    ensures m.correction == Shifted(f.correction)
    ensures SyncIndication(m, h.delay).0 == WithDelay(OriginOf(f) + m.correction, m.rateRatio, LocalDelay(h.delay))
  {
    HeldFields(f, h);
    hide LocalDelay;
    hide Held;
    hide Shifted;
    hide SyncIndication;
    hide WithDelay;
    hide Truncated;
    IndicationParts(m, h.delay);
  }

  lemma SlaveParts(f: FupMsg, c: Clock, ts: nat, h: Hop, err: real, mu: real, tau: real)
    requires GoodTimes(h, c, ts, tau, mu) && Near(Told(f) - GmTime(c, ts as real), err)
    ensures && Near(OriginOf(f) as real + f.correction as real / TWO_POW_16 - GmTime(c, ts as real), err)
            && Near(GmTime(h.clock, h.rts as real - LocalDelay(h.delay)) - GmTime(c, ts as real), mu)
            && LocalDelay(h.delay) >= 0.0
  {
    hide GmTime;
    hide LocalDelay;
    hide Near;
  }

  /** Any number of systems, and a slave: the time it takes for the reception of the Sync is the
      grandmaster's time then, up to the error transported, its link, its ratio and rounding, and
      the local time it takes is its own reading then, rounded down. */
  lemma SlaveLearnsTime(w: Way, fs: seq<FupMsg>, k: nat, lambda: real)
    requires Started(w, fs) && k < |w.hops|
    requires LocalDelay(w.hops[k].delay) <= lambda
    requires fs[k].originSeconds < 0x1_0000_0000
    ensures var (h, m) := (w.hops[k], Held(fs[k], w.hops[k]));
            m.rateRatio > 0.0 &&
            (var (nsec, local) := SyncIndication(m, h.delay);
             && (local == h.rts || local == h.rts - 1)
             && Near(nsec as real - GmTime(h.clock, h.rts as real),
                     TransportError(k, w.eps, w.tau, w.mu) + RatioError(w.eps, k + 1) * lambda + w.mu + 2.0))
  {
    hide Held;
    hide GmTime;
    hide LocalDelay;
    hide ScaledOffset;
    hide Accumulated;
    hide RatioError;
    hide TransportError;
    hide FewHops;
    hide Sends;
    hide SyncIndication;
    hide Way.Good;
    hide GoodTimes;
    hide GoodRate;
    TimeIsTransported(w, fs, k);
    RatioHeld(w, fs, k);
    RatioUsed(w, k);
    SystemAt(w, k);
    var h, m := w.hops[k], Held(fs[k], w.hops[k]);
    SlaveTimes(fs[k], w.ClockAt(k), w.SentAt(k), h, m, TransportError(k, w.eps, w.tau, w.mu),
               RatioError(w.eps, k + 1), lambda, w.tau, w.mu);
  }
}

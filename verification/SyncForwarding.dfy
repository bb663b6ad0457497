/** Forwarding of a received Sync through a system (site_sync_sync_sm.c, port_sync_sync_send_sm.c,
    portSyncSync_for_all in gptpman.c): one source of time. The test ports of the configuration are
    not set. */
module SyncForwarding {
  import opened Words
  import opened Priority
  import opened BmcsState
  import opened BmcsInvariants
  import Selection = PortSelection

  const FOREVER: uint64 := 0xFFFF_FFFF_FFFF_FFFF

  /** A PortSyncSync: the port the Sync came in on, 0 for this system's own clock, when it is too old,
      when the next one is due, its interval, and what it carries. */
  datatype Pss = Pss(port: nat, receiptTimeout: uint64, nextSend: uint64, logInterval: int, content: int)

  const NO_PSS: Pss := Pss(0, 0, 0, 0, 0)

  // ------------------------------------------------------------------ site sync

  datatype SiteState = SiteInit | Initializing | ReceivingSync | SiteReaction

  /** `stored` is what was forwarded last (portSyncSync), `rcvd` tells whether `received` waits. */
  datatype Site = Site(
    rcvd: bool, received: Pss, stored: Pss, timeout: uint64, sendTime: uint64, state: SiteState, lastState: SiteState)

  const SITE_INITIAL: Site := Site(false, NO_PSS, NO_PSS, 0, 0, Initializing, Initializing)

  /** What the machine sees of the system. */
  datatype Roles = Roles(selectedState: seq<PortState>, gmPresent: bool)

  predicate FromSlave(r: Roles, p: Pss) {
    p.port < |r.selectedState| && r.selectedState[p.port] == SlavePort && r.gmPresent
  }

  /** The stored Sync is late but not too old. */
  predicate Overdue(s: Site, r: Roles, now: uint64) {
    FromSlave(r, s.stored) && s.timeout != 0 && now <= s.timeout && s.sendTime != 0 && now > s.sendTime
  }

  function ReceivingSyncProc(s: Site): Site {
    s.(rcvd := false, stored := s.received, timeout := s.received.receiptTimeout, sendTime := s.received.nextSend)
  }

  function ReceivingSyncCondition(s: Site, r: Roles, now: uint64): Site {
    var t := if s.rcvd && FromSlave(r, s.received) then s.(lastState := SiteReaction) else s;
    var u :=
      if t.rcvd && Overdue(t, r, now) then
        t.(received := if t.received.receiptTimeout == FOREVER || t.sendTime >= t.received.receiptTimeout
                       then t.stored else t.received,
           lastState := SiteReaction)
      else t;
    if u.timeout != 0 && now > u.timeout then u.(timeout := 0) else u
  }

  /** One pass, and the Sync handed back. */
  function SiteIterate(s: Site, r: Roles, now: uint64): (Site, Option<Pss>) {
    var change := s.lastState != s.state;
    var t := s.(lastState := s.state);
    match s.state
    case SiteInit => (t.(state := Initializing), None)
    case Initializing =>
      var u := if change then t.(rcvd := false) else t;
      (if u.rcvd && FromSlave(r, u.received) then u.(state := ReceivingSync) else u, None)
    case ReceivingSync =>
      var u := if change then ReceivingSyncProc(t) else t;
      (ReceivingSyncCondition(u, r, now), if change then Some(u.stored) else None)
    case SiteReaction => (t, None)
  }

  function SiteRank(s: Site): nat {
    var done := s.lastState == s.state;
    (if done then 10 else 0) +
    match s.state
    case SiteInit => 4
    case Initializing => 2
    case ReceivingSync => 1
    case SiteReaction => 0
  }

  function SiteLoop(s: Site, r: Roles, now: uint64): (Site, Option<Pss>)
    decreases SiteRank(s)
  {
    var (t, out) := SiteIterate(s, r, now);
    if out.Some? || t.lastState == t.state then (t, out) else SiteLoop(t, r, now)
  }

  /** site_sync_sync_sm_portSyncSync */
  function SiteCall(s: Site, p: Pss, r: Roles, now: uint64): (Site, Option<Pss>) {
    SiteLoop(s.(rcvd := true, received := p), r, now)
  }

  predicate SiteAtRest(s: Site) {
    s.lastState == s.state && (s.state == Initializing || s.state == ReceivingSync)
  }

  /** What a call forwards: the Sync that arrives, if it comes from the slave port; and, when the
      stored one is overdue, the one that arrives wherever it comes from, or the stored one again. */
  lemma SiteForwards(s: Site, p: Pss, r: Roles, now: uint64)
    requires SiteAtRest(s)
    ensures SiteAtRest(SiteCall(s, p, r, now).0)
    ensures var q := s.stored;
            var slave := p.port < |r.selectedState| && r.selectedState[p.port] == SlavePort && r.gmPresent;
            var late := q.port < |r.selectedState| && r.selectedState[q.port] == SlavePort && r.gmPresent &&
                        s.timeout != 0 && now <= s.timeout && 0 < s.sendTime < now;
            SiteCall(s, p, r, now).1 ==
              if s.state == ReceivingSync && late then
                Some(if p.receiptTimeout == 0xFFFF_FFFF_FFFF_FFFF || s.sendTime >= p.receiptTimeout then q else p)
              else if slave then Some(p)
              else None
    ensures var (t, out) := SiteCall(s, p, r, now);
            if out.Some? then
              && t.state == ReceivingSync && t.stored == out.value && t.sendTime == out.value.nextSend
              && t.timeout == if now > out.value.receiptTimeout then 0 else out.value.receiptTimeout
            else
              && t.state == s.state && t.stored == s.stored && t.sendTime == s.sendTime
              && t.timeout == if s.state == ReceivingSync && now > s.timeout then 0 else s.timeout
  {
    var s1 := s.(rcvd := true, received := p);
    var (s2, o2) := SiteIterate(s1, r, now);
    assert o2 == None;
    if s2.lastState != s2.state {
      var (s3, o3) := SiteIterate(s2, r, now);
      assert o3.Some?;
      assert SiteLoop(s2, r, now) == (s3, o3);
      assert !s3.rcvd;
    }
  }

  /** The ingress of what is forwarded is the slave port, except that an overdue Sync lets one in from
      any port that is not too old. */
  lemma IngressIsSlave(s: Site, p: Pss, r: Roles, now: uint64)
    requires SiteAtRest(s)
    ensures var out := SiteCall(s, p, r, now).1;
            out.Some? ==>
              (FromSlave(r, out.value) <==>
                 FromSlave(r, p) || !(s.state == ReceivingSync && Overdue(s, r, now)) ||
                 p.receiptTimeout == FOREVER || s.sendTime >= p.receiptTimeout)
  {
    SiteForwards(s, p, r, now);
  }

  /** For instance: while the Sync stored from slave port `i` is overdue, one from any other port `j`
      is forwarded. */
  lemma OverdueLetsOthersIn(r: Roles, i: nat, j: nat, content: int)
    requires i < |r.selectedState| && r.selectedState[i] == SlavePort && r.gmPresent
    requires j < |r.selectedState| && r.selectedState[j] != SlavePort
    ensures var stored, p := Pss(i, 100, 10, 0, 0), Pss(j, 50, 30, 0, content);
            var s := Site(false, stored, stored, 100, 10, ReceivingSync, ReceivingSync);
            SiteAtRest(s) && SiteCall(s, p, r, 20).1 == Some(p) && !FromSlave(r, p)
  {
    var stored := Pss(i, 100, 10, 0, 0);
    SiteForwards(Site(false, stored, stored, 100, 10, ReceivingSync, ReceivingSync), Pss(j, 50, 30, 0, content), r, 20);
  }

  // ------------------------------------------------------------------ sending on one port

  datatype TxState = TxInit | TransmitInit | SendMdSync | SyncReceiptTimeout | TxReaction

  datatype Tx = Tx(
    rcvd: bool, received: Pss, last: Pss, locked: bool, lastSent: uint64, interval: nat,
    transmissions: nat, slowdown: bool, state: TxState, lastState: TxState)

  /** What the machine of one port sees. */
  datatype TxEnv = TxEnv(
    port: nat, enabled: bool, master: bool, locks: bool, syncInterval: nat, allowed: nat)

  function SendMdSyncProc(s: Tx, e: TxEnv, now: uint64): Tx {
    var t := if s.rcvd then s.(last := s.received, locked := e.locks) else s;
    var u := t.(rcvd := false, lastSent := now, interval := e.syncInterval);
    if !u.slowdown then u.(transmissions := 0)
    else if u.transmissions >= e.allowed then u.(transmissions := 0, slowdown := false)
    else u.(transmissions := u.transmissions + 1)
  }

  predicate Forwardable(s: Tx, e: TxEnv) { s.rcvd && s.received.port != e.port && e.enabled && e.master }

  function SendMdSyncCondition(s: Tx, e: TxEnv, now: uint64): Tx {
    if now >= s.last.receiptTimeout && !s.locked then s.(state := SyncReceiptTimeout)
    else if ((s.rcvd && s.locked && s.received.port != e.port) ||
             (!s.locked && Minus(now, s.lastSent) >= s.interval && s.last.port != e.port)) && e.enabled && e.master
    then s.(lastState := TxReaction)
    else s
  }

  function TxIterate(s: Tx, e: TxEnv, now: uint64): (Tx, Option<Pss>) {
    var change := s.lastState != s.state;
    var t := s.(lastState := s.state);
    match s.state
    case TxInit => (t.(state := TransmitInit), None)
    case TransmitInit =>
      var u := if change then t.(rcvd := false, slowdown := false, transmissions := 0) else t;
      (if Forwardable(u, e) then u.(state := SendMdSync) else u, None)
    case SendMdSync =>
      if change then (SendMdSyncProc(t, e, now), Some(SendMdSyncProc(t, e, now).last))
      else (SendMdSyncCondition(t, e, now), None)
    case SyncReceiptTimeout =>
      var u := if change then t.(rcvd := false) else t;
      (if Forwardable(u, e) then u.(state := SendMdSync) else u, None)
    case TxReaction => (t, None)
  }

  function TxRank(s: Tx): nat {
    var done := s.lastState == s.state;
    (if done then 10 else 0) +
    match s.state
    case TxInit => 5
    case TransmitInit => 3
    case SyncReceiptTimeout => 2
    case SendMdSync => 1
    case TxReaction => 0
  }

  function TxLoop(s: Tx, e: TxEnv, now: uint64): (Tx, Option<Pss>)
    decreases TxRank(s)
  {
    var (t, out) := TxIterate(s, e, now);
    if out.Some? || t.lastState == t.state then (t, out) else TxLoop(t, e, now)
  }

  /** port_sync_sync_send_sm_portSyncSync */
  function TxCall(s: Tx, p: Pss, e: TxEnv, now: uint64): (Tx, Option<Pss>) {
    var t := s.(rcvd := true, received := p);
    TxLoop(if e.enabled then t else t.(lastState := TxReaction, state := TransmitInit), e, now)
  }

  predicate TxAtRest(s: Tx) {
    s.lastState == s.state && s.state != TxReaction
  }

  /** A port sends only what it was just given, and only as an enabled master. */
  lemma TxSendsWhatItGets(s: Tx, p: Pss, e: TxEnv, now: uint64)
    requires TxAtRest(s)
    ensures var (t, out) := TxCall(s, p, e, now);
            TxAtRest(t) && (out.Some? ==> out.value == p && e.enabled && e.master)
  {
    var s1 := s.(rcvd := true, received := p);
    var s2 := if e.enabled then s1 else s1.(lastState := TxReaction, state := TransmitInit);
    var (s3, o3) := TxIterate(s2, e, now);
    if !(o3.Some? || s3.lastState == s3.state) {
      var (s4, o4) := TxIterate(s3, e, now);
      assert TxLoop(s2, e, now) == TxLoop(s3, e, now);
      if !(o4.Some? || s4.lastState == s4.state) {
        assert TxLoop(s3, e, now) == TxLoop(s4, e, now);
      }
    }
  }

  /** When a port sends the Sync it is given: an enabled master, not the port the Sync came in on, at rest
      in the first or the timed-out state, or locked to what it sends; not locked, it sends when its
      own interval is over, the Sync sent last is not too old and did not come in on this port. */
  predicate Sends(s: Tx, p: Pss, e: TxEnv, now: uint64) {
    && e.enabled && e.master
    && match s.state
       case TransmitInit => p.port != e.port
       case SyncReceiptTimeout => p.port != e.port
       case SendMdSync =>
         if s.locked then p.port != e.port
         else now < s.last.receiptTimeout && Minus(now, s.lastSent) >= s.interval && s.last.port != e.port
       case TxInit => false
       case TxReaction => false
  }

  /** A port sends exactly then. */
  lemma SendsIff(s: Tx, p: Pss, e: TxEnv, now: uint64)
    requires TxAtRest(s)
    ensures TxCall(s, p, e, now).1 == if Sends(s, p, e, now) then Some(p) else None
  {
    hide Minus;
    var s1 := s.(rcvd := true, received := p);
    var s2 := if e.enabled then s1 else s1.(lastState := TxReaction, state := TransmitInit);
    var (s3, o3) := TxIterate(s2, e, now);
    if !(o3.Some? || s3.lastState == s3.state) {
      assert TxLoop(s2, e, now) == TxLoop(s3, e, now);
    }
  }

  /** What it sent, it remembers, and when; and what it does not send changes its state at most. */
  predicate Remembers(s: Tx, p: Pss, e: TxEnv, now: uint64, t: Tx) {
    if Sends(s, p, e, now) then
      && t.state == t.lastState == SendMdSync && !t.rcvd && t.last == p && t.lastSent == now
      && t.locked == e.locks && t.interval == e.syncInterval
      && (t.slowdown <==> s.slowdown && s.transmissions < e.allowed)
      && t.transmissions == if t.slowdown then s.transmissions + 1 else 0
    else
      && t.last == s.last && t.locked == s.locked && t.lastSent == s.lastSent && t.interval == s.interval
      && t.state == t.lastState
      && (if !e.enabled || s.state == TxInit then !t.slowdown && t.transmissions == 0
          else t.slowdown == s.slowdown && t.transmissions == s.transmissions)
      && t.state == if !e.enabled || s.state == TxInit then TransmitInit
                    else if s.state == SendMdSync && !s.locked && now >= s.last.receiptTimeout
                    then SyncReceiptTimeout else s.state
  }

  lemma SenderRemembers(s: Tx, p: Pss, e: TxEnv, now: uint64)
    requires TxAtRest(s) && s.state == SendMdSync && e.enabled
    ensures Remembers(s, p, e, now, TxCall(s, p, e, now).0)
  {
    hide Minus;
    var s1 := s.(rcvd := true, received := p);
    var (s2, o2) := TxIterate(s1, e, now);
    if s2.lastState != s2.state { assert TxLoop(s1, e, now) == TxLoop(s2, e, now); }
  }

  lemma SendingIsRemembered(s: Tx, p: Pss, e: TxEnv, now: uint64)
    requires TxAtRest(s)
    ensures Remembers(s, p, e, now, TxCall(s, p, e, now).0)
  {
    if s.state == SendMdSync && e.enabled {
      SenderRemembers(s, p, e, now);
    } else {
      hide Minus;
      hide SendMdSyncCondition;
      var s1 := s.(rcvd := true, received := p);
      var s2 := if e.enabled then s1 else s1.(lastState := TxReaction, state := TransmitInit);
      var (s3, o3) := TxIterate(s2, e, now);
      if s3.lastState != s3.state { assert TxLoop(s2, e, now) == TxLoop(s3, e, now); }
    }
  }

  // ------------------------------------------------------------------ the machines, updated in place

  class Forwarder {
    var rcvdPSSync: bool
    var rcvdPSSyncPtr: Pss
    var portSyncSync: Pss
    var siteSyncTimeout: uint64
    var siteSyncSendTime: uint64
    var state: SiteState
    var lastState: SiteState
    const senders: array<Tx>                // one machine a port, index 0 not used

    ghost function SiteNow(): Site
      reads this
    {
      Site(rcvdPSSync, rcvdPSSyncPtr, portSyncSync, siteSyncTimeout, siteSyncSendTime, state, lastState)
    }

    constructor (ports: nat)
      ensures SiteNow() == SITE_INITIAL && senders.Length == ports && fresh(senders)
      ensures forall i :: 0 <= i < ports ==> senders[i].state == senders[i].lastState == TxInit
    {
      rcvdPSSync, rcvdPSSyncPtr, portSyncSync := false, NO_PSS, NO_PSS;
      siteSyncTimeout, siteSyncSendTime := 0, 0;
      state, lastState := Initializing, Initializing;
      var none := NO_PSS;
      senders := new Tx[ports](_ => Tx(false, none, none, false, 0, 0, 0, false, TxInit, TxInit));
    }

    method ReceivingNext(r: Roles, now: uint64)
      requires state == ReceivingSync && lastState == state
      modifies this`rcvdPSSyncPtr, this`lastState, this`siteSyncTimeout
      ensures SiteNow() == ReceivingSyncCondition(old(SiteNow()), r, now)
    {
      var p := rcvdPSSyncPtr;
      if rcvdPSSync && p.port < |r.selectedState| && r.selectedState[p.port] == SlavePort && r.gmPresent {
        lastState := SiteReaction;
      }
      var q := portSyncSync;
      if rcvdPSSync && q.port < |r.selectedState| && r.selectedState[q.port] == SlavePort && r.gmPresent &&
         siteSyncTimeout != 0 && !(now > siteSyncTimeout) && siteSyncSendTime != 0 && now > siteSyncSendTime {
        if p.receiptTimeout == FOREVER || siteSyncSendTime >= p.receiptTimeout { rcvdPSSyncPtr := portSyncSync; }
        lastState := SiteReaction;
      }
      if siteSyncTimeout != 0 && now > siteSyncTimeout { siteSyncTimeout := 0; }
    }

    method SitePass(r: Roles, now: uint64) returns (out: Option<Pss>)
      modifies this
      ensures (SiteNow(), out) == SiteIterate(old(SiteNow()), r, now)
    {
      out := None;
      var change := lastState != state;
      lastState := state;
      match state
      case SiteInit => state := Initializing;
      case Initializing =>
        if change { rcvdPSSync := false; }
        if rcvdPSSync && FromSlave(r, rcvdPSSyncPtr) { state := ReceivingSync; }
      case ReceivingSync =>
        if change {
          rcvdPSSync := false;
          portSyncSync := rcvdPSSyncPtr;
          siteSyncTimeout, siteSyncSendTime := rcvdPSSyncPtr.receiptTimeout, rcvdPSSyncPtr.nextSend;
          out := Some(portSyncSync);
        }
        ReceivingNext(r, now);
      case SiteReaction =>
    }

    /** site_sync_sync_sm_portSyncSync */
    method SiteSync(p: Pss, r: Roles, now: uint64) returns (out: Option<Pss>)
      modifies this
      ensures (SiteNow(), out) == SiteCall(old(SiteNow()), p, r, now)
    {
      ghost var result := SiteCall(SiteNow(), p, r, now);
      rcvdPSSync, rcvdPSSyncPtr := true, p;
      while true
        invariant SiteLoop(SiteNow(), r, now) == result
        decreases SiteRank(SiteNow())
      {
        out := SitePass(r, now);
        if out.Some? { return; }
        if lastState == state { break; }
      }
    }

    method TxPass(i: nat, e: TxEnv, now: uint64) returns (out: Option<Pss>)
      requires i < senders.Length
      modifies senders
      ensures (senders[i], out) == TxIterate(old(senders[i]), e, now)
      ensures senders[..] == old(senders[..])[i := senders[i]]
    {
      out := None;
      var s := senders[i];
      var change := s.lastState != s.state;
      senders[i] := s.(lastState := s.state);
      match s.state
      case TxInit => senders[i] := senders[i].(state := TransmitInit);
      case TransmitInit =>
        if change { senders[i] := senders[i].(rcvd := false, slowdown := false, transmissions := 0); }
        if Forwardable(senders[i], e) { senders[i] := senders[i].(state := SendMdSync); }
      case SendMdSync =>
        if change {
          senders[i] := SendMdSyncProc(senders[i], e, now);
          out := Some(senders[i].last);
        } else {
          senders[i] := SendMdSyncCondition(senders[i], e, now);
        }
      case SyncReceiptTimeout =>
        if change { senders[i] := senders[i].(rcvd := false); }
        if Forwardable(senders[i], e) { senders[i] := senders[i].(state := SendMdSync); }
      case TxReaction =>
    }

    /** port_sync_sync_send_sm_portSyncSync for port `i` */
    method TxSync(i: nat, p: Pss, e: TxEnv, now: uint64) returns (out: Option<Pss>)
      requires i < senders.Length
      modifies senders
      ensures (senders[i], out) == TxCall(old(senders[i]), p, e, now)
      ensures senders[..] == old(senders[..])[i := senders[i]]
    {
      ghost var result := TxCall(senders[i], p, e, now);
      senders[i] := senders[i].(rcvd := true, received := p);
      if !e.enabled { senders[i] := senders[i].(lastState := TxReaction, state := TransmitInit); }
      while true
        invariant TxLoop(senders[i], e, now) == result
        invariant senders[..] == old(senders[..])[i := senders[i]]
        decreases TxRank(senders[i])
      {
        out := TxPass(i, e, now);
        if out.Some? { return; }
        if senders[i].lastState == senders[i].state { break; }
      }
    }

    /** The loop of portSyncSync_for_all: what each port sends. */
    method ForAll(p: Pss, envs: seq<TxEnv>, now: uint64) returns (sent: seq<Option<Pss>>)
      requires |envs| == senders.Length >= 1
      modifies senders
      ensures |sent| == senders.Length && sent[0] == None
      ensures forall i :: 1 <= i < senders.Length ==>
                (senders[i], sent[i]) == TxCall(old(senders[i]), p, envs[i], now)
      ensures forall i :: 1 <= i < senders.Length && TxAtRest(old(senders[i])) ==>
                sent[i] == if Sends(old(senders[i]), p, envs[i], now) then Some(p) else None
    {
      sent := [None];
      var pi := 1;
      while pi < senders.Length
        invariant 1 <= pi == |sent| <= senders.Length && sent[0] == None
        invariant forall i :: 1 <= i < pi ==> (senders[i], sent[i]) == TxCall(old(senders[i]), p, envs[i], now)
        invariant forall i :: pi <= i < senders.Length ==> senders[i] == old(senders[i])
      {
        ghost var before := senders[..];
        var out := TxSync(pi, p, envs[pi], now);
        assert forall i :: 0 <= i < senders.Length && i != pi ==> senders[i] == senders[..][i] == before[i];
        sent := sent + [out];
        pi := pi + 1;
      }
      hide TxCall;
      hide Sends;
      forall i | 1 <= i < senders.Length && TxAtRest(old(senders[i]))
        ensures sent[i] == if Sends(old(senders[i]), p, envs[i], now) then Some(p) else None
      {
        SendsIff(old(senders[i]), p, envs[i], now);
      }
    }
  }

  // ------------------------------------------------------------------ one source of time

  function RolesOf(s: Sys): Roles { Roles(s.selectedState, s.gmPresent) }

  /** What port `i` of the system sees. */
  predicate Sees(s: Sys, i: nat, e: TxEnv) {
    i < |s.ports| && e.port == i && (e.master <==> s.selectedState[i] == MasterPort)
  }

  /** `i` is the one slave port of the system: port 0 exactly when it is grandmaster itself. */
  ghost predicate OnlySlave(s: Sys, i: nat) {
    && i < |s.ports| && s.selectedState[i] == SlavePort
    && (forall j: nat :: j < |s.ports| && s.selectedState[j] == SlavePort ==> j == i)
    && (i == 0 <==> s.gmPriority == s.systemPriority)
  }

  lemma SlaveIsOnly(s: Sys, i: nat)
    requires SysInv(s) && HasSelected(s) && i < |s.ports| && s.selectedState[i] == SlavePort
    ensures OnlySlave(s, i)
  {
    if i == 0 {
      assert !Selection.SlaveAmong(s, |s.ports|);
    } else {
      assert Selection.SlaveAmong(s, |s.ports|);
    }
  }

  /** What is forwarded when `p` arrives is `p`, it comes from the one slave port, and it leaves on
      enabled master ports only, never on the port it came from. */
  ghost predicate FromSlaveToMasters(s: Sys, site: Site, p: Pss, now: uint64)
    requires p.port < |s.ports|
  {
    var out := SiteCall(site, p, RolesOf(s), now).1;
    out.Some? ==>
      && out.value == p && OnlySlave(s, p.port)
      && (forall t: Tx, e: TxEnv {:trigger TxCall(t, p, e, now)} ::
            TxAtRest(t) && Sees(s, e.port, e) && TxCall(t, p, e, now).1.Some? ==>
              TxCall(t, p, e, now).1.value == p && e.enabled &&
              s.selectedState[e.port] == MasterPort && e.port != p.port)
  }

  /** So it is in every state of the system while the stored Sync is not overdue. */
  lemma SingleSource(s: Sys, site: Site, p: Pss, now: uint64)
    requires SysInv(s) && HasSelected(s) && p.port < |s.ports|
    requires SiteAtRest(site) && !(site.state == ReceivingSync && Overdue(site, RolesOf(s), now))
    ensures FromSlaveToMasters(s, site, p, now)
  {
    SiteForwards(site, p, RolesOf(s), now);
    if SiteCall(site, p, RolesOf(s), now).1.Some? {
      SlaveIsOnly(s, p.port);
      forall t: Tx, e: TxEnv {:trigger TxCall(t, p, e, now)}
        | TxAtRest(t) && Sees(s, e.port, e) && TxCall(t, p, e, now).1.Some?
        ensures TxCall(t, p, e, now).1.value == p && e.enabled &&
                s.selectedState[e.port] == MasterPort && e.port != p.port
      {
        TxSendsWhatItGets(t, p, e, now);
      }
    }
  }

  /** Nothing else holds a Sync up: one from the one slave port is forwarded and sent by every enabled
      master port that has sent nothing yet, whose last Sync is too old, or that is locked. */
  lemma SyncCrosses(s: Sys, site: Site, p: Pss, t: Tx, e: TxEnv, now: uint64)
    requires SysInv(s) && HasSelected(s) && p.port < |s.ports|
    requires SiteAtRest(site) && !(site.state == ReceivingSync && Overdue(site, RolesOf(s), now))
    requires s.selectedState[p.port] == SlavePort && s.gmPresent
    requires TxAtRest(t) && Sees(s, e.port, e)
    ensures SiteCall(site, p, RolesOf(s), now).1 == Some(p)
    ensures e.enabled && s.selectedState[e.port] == MasterPort &&
            (t.state == TransmitInit || t.state == SyncReceiptTimeout || (t.state == SendMdSync && t.locked)) ==>
              TxCall(t, p, e, now).1 == Some(p)
  {
    SiteForwards(site, p, RolesOf(s), now);
    SendsIff(t, p, e, now);
  }

  /** So it is in every state of every run of the best master clock machines. */
  lemma RunsHaveASingleSource(root: SystemIdentity, props: TimeProps, quick: bool, configs: seq<PortConfig>,
                              events: seq<Event>, site: Site, p: Pss, now: uint64)
    requires 1 <= |configs| < MAX_PORT_NUMBER_LIMIT && p.port < |configs| && SiteAtRest(site)
    ensures Between(NewSys(root, props, quick, configs))
    ensures var s := RunEvents(NewSys(root, props, quick, configs), events);
            HasSelected(s) && !(site.state == ReceivingSync && Overdue(site, RolesOf(s), now)) ==>
              FromSlaveToMasters(s, site, p, now)
  {
    hide FromSlaveToMasters;
    hide SiteCall;
    EveryRun(root, props, quick, configs, events);
    var s := RunEvents(NewSys(root, props, quick, configs), events);
    if HasSelected(s) && !(site.state == ReceivingSync && Overdue(site, RolesOf(s), now)) {
      SingleSource(s, site, p, now);
    }
  }
}

/** Sync and Follow_Up sent on one port (md_sync_send_sm.c): the machine as a class, its passes as
    functions, and how Follow_Ups go with Syncs over every order of events. One-step transmission
    is off. */
module SyncSending {
  import opened Words
  import opened BmcsState
  import T = TimeTransport

  datatype SendState = Init | Initializing | SendSync | SendFollowUp | Reaction

  datatype Tx = Tx(
    enabled: bool,                  // portOper, ptpPortEnabled and asCapable
    rcvdMd: bool, md: T.MDSync,     // rcvdMDSync and what it points to
    rcvdTs: bool, syncTs: uint64, mockTs: uint64,
    sequenceId: uint16, sentTime: uint64, state: SendState, lastState: SendState)

  const NO_MD: T.MDSync := T.MDSync(0, 0, 0, 0.0, 0)
  const INITIAL: Tx := Tx(false, false, NO_MD, false, 0, 0, 0, 0, Init, Init)

  /** Time, transmission, the random first sequence number, and how long a timestamp may take. */
  datatype Ambient = Ambient(now: uint64, outcome: Outcome, fupSent: bool, random: uint16, txtsLost: nat)

  datatype Out = Nothing | SyncOut(sequenceId: uint16, md: T.MDSync) | FupOut(sequenceId: uint16, md: T.MDSync, ts: uint64)

  datatype Passed = Passed(s: Tx, ends: bool, out: Out)

  // ------------------------------------------------------------------ one pass

  function Enter(s: Tx): Tx { if s.enabled then s else s.(lastState := Reaction, state := Initializing) }

  function SendSyncProc(s: Tx, x: Ambient): Passed {
    var t := s.(rcvdMd := false);
    if x.outcome.Failed? then Passed(t.(lastState := Reaction), true, Nothing)
    else
      Passed(t.(mockTs := if x.outcome.SentWithoutTimestamp? then x.outcome.ts else t.mockTs, sentTime := x.now),
             true, SyncOut(t.sequenceId, t.md))
  }

  function SendSyncCondition(s: Tx, x: Ambient): Tx {
    if s.rcvdTs then s.(state := SendFollowUp)
    else if s.mockTs != 0 then s.(syncTs := s.mockTs, mockTs := 0, state := SendFollowUp)
    else if Minus(x.now, s.sentTime) >= x.txtsLost then s.(lastState := Reaction)
    else s
  }

  function SendFollowUpProc(s: Tx, x: Ambient): Passed {
    var t := s.(rcvdTs := false);
    if !x.fupSent then Passed(t.(lastState := Reaction), true, Nothing)
    else Passed(t.(sequenceId := Next16(t.sequenceId)), true, FupOut(t.sequenceId, t.md, t.syncTs))
  }

  function Iterate(s: Tx, x: Ambient): Passed {
    var change := s.lastState != s.state;
    var t := s.(lastState := s.state);
    match s.state
    case Init => Passed(t.(state := Initializing), false, Nothing)
    case Initializing =>
      var u := if change then t.(rcvdMd := false, rcvdTs := false, sequenceId := x.random) else t;
      Passed(if u.rcvdMd && u.enabled then u.(state := SendSync) else u, false, Nothing)
    case SendSync => if change then SendSyncProc(t, x) else Passed(SendSyncCondition(t, x), false, Nothing)
    case SendFollowUp =>
      if change then SendFollowUpProc(t, x)
      else Passed(if t.rcvdMd && t.enabled then t.(state := SendSync) else t, false, Nothing)
    case Reaction => Passed(t, false, Nothing)
  }

  predicate Done(s: Tx) { s.lastState == s.state }

  function Rank(s: Tx): nat {
    match s.state
    case Init => 5
    case Initializing => if Done(s) then 4 else 3
    case SendSync => if Done(s) then 2 else 0
    case SendFollowUp => if Done(s) then 2 else 0
    case Reaction => 0
  }

  lemma IterateDecreases(s: Tx, x: Ambient)
    ensures var r := Iterate(s, x); r.ends || Done(r.s) || Rank(r.s) < Rank(s)
  {}

  function Loop(s: Tx, x: Ambient): Passed
    decreases Rank(s)
  {
    IterateDecreases(s, x);
    var r := Iterate(s, x);
    if r.ends || Done(r.s) then r else Loop(r.s, x)
  }

  function Call(s: Tx, x: Ambient): Passed { Loop(Enter(s), x) }

  // ------------------------------------------------------------------ the machine

  class SyncSender {
    var enabled: bool
    var rcvdMDSync: bool
    var rcvdMDSyncPtr: T.MDSync
    var rcvdMDTimestampReceive: bool
    var syncTs: uint64
    var mockTxTs: uint64
    var syncSequenceId: uint16
    var txSyncTime: uint64
    var state: SendState
    var lastState: SendState

    ghost function Snapshot(): Tx
      reads this
    {
      Tx(enabled, rcvdMDSync, rcvdMDSyncPtr, rcvdMDTimestampReceive, syncTs, mockTxTs, syncSequenceId, txSyncTime,
         state, lastState)
    }

    constructor ()
      ensures Snapshot() == INITIAL
    {
      enabled, rcvdMDSync, rcvdMDSyncPtr, rcvdMDTimestampReceive := false, false, T.MDSync(0, 0, 0, 0.0, 0), false;
      syncTs, mockTxTs, syncSequenceId, txSyncTime := 0, 0, 0, 0;
      state, lastState := Init, Init;
    }

    method TwoStepPass(change: bool, x: Ambient) returns (ends: bool, out: Out)
      requires state == lastState == SendSync
      modifies this
      ensures Passed(Snapshot(), ends, out) ==
                if change then SendSyncProc(old(Snapshot()), x)
                else Passed(SendSyncCondition(old(Snapshot()), x), false, Nothing)
    {
      ends, out := change, Nothing;
      if change {
        rcvdMDSync := false;
        if x.outcome.Failed? {
          lastState := Reaction;
          return;
        }
        if x.outcome.SentWithoutTimestamp? { mockTxTs := x.outcome.ts; }
        txSyncTime := x.now;
        out := SyncOut(syncSequenceId, rcvdMDSyncPtr);
      } else if rcvdMDTimestampReceive {
        state := SendFollowUp;
      } else if mockTxTs != 0 {
        syncTs, mockTxTs := mockTxTs, 0;
        state := SendFollowUp;
      } else if Minus(x.now, txSyncTime) >= x.txtsLost {
        lastState := Reaction;
      }
    }

    method FollowUpPass(change: bool, x: Ambient) returns (ends: bool, out: Out)
      requires state == lastState == SendFollowUp
      modifies this
      ensures Passed(Snapshot(), ends, out) ==
                if change then SendFollowUpProc(old(Snapshot()), x)
                else Passed(if old(rcvdMDSync && enabled) then old(Snapshot()).(state := SendSync) else old(Snapshot()),
                            false, Nothing)
    {
      ends, out := change, Nothing;
      if change {
        rcvdMDTimestampReceive := false;
        if !x.fupSent {
          lastState := Reaction;
          return;
        }
        out := FupOut(syncSequenceId, rcvdMDSyncPtr, syncTs);
        syncSequenceId := Next16(syncSequenceId);
      } else if rcvdMDSync && enabled {
        state := SendSync;
      }
    }

    method Pass(x: Ambient) returns (ends: bool, out: Out)
      modifies this
      ensures Passed(Snapshot(), ends, out) == Iterate(old(Snapshot()), x)
    {
      ends, out := false, Nothing;
      var change := lastState != state;
      lastState := state;
      match state
      case Init => state := Initializing;
      case Initializing =>
        if change { rcvdMDSync, rcvdMDTimestampReceive, syncSequenceId := false, false, x.random; }
        if rcvdMDSync && enabled { state := SendSync; }
      case SendSync => ends, out := TwoStepPass(change, x);
      case SendFollowUp => ends, out := FollowUpPass(change, x);
      case Reaction =>
    }

    /** md_sync_send_sm */
    method Run(x: Ambient) returns (ends: bool, out: Out)
      modifies this
      ensures Passed(Snapshot(), ends, out) == Call(old(Snapshot()), x)
    {
      ghost var r := Call(Snapshot(), x);
      hide Iterate;
      if !enabled { lastState, state := Reaction, Initializing; }
      while true
        invariant Loop(Snapshot(), x) == r
        decreases Rank(Snapshot())
      {
        IterateDecreases(Snapshot(), x);
        ends, out := Pass(x);
        if ends { return; }
        if lastState == state { break; }
      }
    }

    /** md_sync_send_sm_mdSyncSend */
    method MdSyncSend(md: T.MDSync, x: Ambient) returns (out: Out)
      modifies this
      ensures (Snapshot(), out) == Step(old(Snapshot()), MdSync(md, x))
    {
      rcvdMDSync, rcvdMDSyncPtr := true, md;
      var ends: bool;
      ends, out := Run(x);
    }

    /** md_sync_send_sm_txts */
    method TxTs(ts: uint64, ghost sync: nat, x: Ambient) returns (out: Out)
      modifies this
      ensures (Snapshot(), out) == Step(old(Snapshot()), TxTimestamp(ts, sync, x))
    {
      rcvdMDTimestampReceive := true;
      syncTs := ts;
      var ends: bool;
      ends, out := Run(x);
    }
  }

  // ------------------------------------------------------------------ every order of events

  /** `sync` tells which event sent the Sync that a timestamp was taken of; the machine does not look at it. */
  datatype Event =
    | MdSync(md: T.MDSync, x: Ambient)
    | TxTimestamp(ts: uint64, sync: nat, x: Ambient)
    | Timeout(x: Ambient)
    | Enable(on: bool)

  function Step(s: Tx, ev: Event): (Tx, Out) {
    match ev
    case MdSync(md, x) => var r := Call(s.(rcvdMd := true, md := md), x); (r.s, r.out)
    case TxTimestamp(ts, _, x) => var r := Call(s.(rcvdTs := true, syncTs := ts), x); (r.s, r.out)
    case Timeout(x) => var r := Call(s, x); (r.s, r.out)
    case Enable(on) => (s.(enabled := on), Nothing)
  }

  /** States between events; the machine may be about to send again what failed. */
  predicate Rest(s: Tx) {
    && s.state != Reaction
    && (s.lastState == s.state || (s.lastState == Reaction && s.state != Init))
  }

  /** Waiting for the timestamp of a Sync that was sent, or for the Follow_Up to be sent. */
  predicate Awaits(s: Tx) {
    (s.state == SendSync && s.lastState == SendSync) || (s.state == SendFollowUp && s.lastState == Reaction)
  }

  /** What a call may do: nothing, a Sync with the number to come, or the Follow_Up of the Sync that
      waits for it. */
  lemma CallSends(s: Tx, x: Ambient)
    requires Rest(s)
    ensures var r := Call(s, x);
            && Rest(r.s) && r.s.md == s.md && r.s.enabled == s.enabled
            && match r.out
               case Nothing =>
                 Awaits(r.s) ==> Awaits(s) && r.s.sequenceId == s.sequenceId
               case SyncOut(q, md) =>
                 s.enabled && q == s.sequenceId == r.s.sequenceId && md == s.md && Awaits(r.s)
               case FupOut(q, md, ts) =>
                 s.enabled && q == s.sequenceId && r.s.sequenceId == Next16(q) && md == s.md && Awaits(s) && !Awaits(r.s) &&
                 ts == r.s.syncTs
  {
    var t := Enter(s);
    var r1 := Iterate(t, x);
    if !(r1.ends || Done(r1.s)) {
      assert Loop(t, x) == Loop(r1.s, x);
    }
  }

  /** A Follow_Up is due: its Sync is timestamped, by the network or the software clock, or sending it failed. */
  predicate FollowUpDue(s: Tx) {
    s.enabled && ((s.state == SendSync && s.lastState == SendSync && (s.rcvdTs || s.mockTs != 0)) ||
                  (s.state == SendFollowUp && s.lastState == Reaction))
  }

  /** A Sync is due: there is something to send and nothing before it; or sending it failed; or it was sent
      and its timestamp is lost. */
  predicate SyncDue(s: Tx, x: Ambient) {
    s.enabled && (((s.state == Initializing || s.state == SendFollowUp) && s.lastState == s.state && s.rcvdMd) ||
                  (s.state == SendSync && s.lastState == Reaction) ||
                  (s.state == SendSync && s.lastState == SendSync && !s.rcvdTs && s.mockTs == 0 &&
                   Minus(x.now, s.sentTime) >= x.txtsLost))
  }

  /** A call sends exactly what is due, if it can be sent; and this is the state it leaves. */
  lemma CallSendsWhatIsDue(s: Tx, x: Ambient)
    requires Rest(s)
    ensures var r, sync := Call(s, x), SyncDue(s, x) && !x.outcome.Failed?;
            var ts := if s.state == SendFollowUp || s.rcvdTs then s.syncTs else s.mockTs;
            && r.out == (if FollowUpDue(s) && x.fupSent then FupOut(s.sequenceId, s.md, ts)
                         else if sync then SyncOut(s.sequenceId, s.md) else Nothing)
            && r.s.enabled == s.enabled && r.s.md == s.md
            && (FollowUpDue(s) ==>
                  && !r.s.rcvdTs && r.s.syncTs == ts && r.s.state == SendFollowUp && r.s.rcvdMd == s.rcvdMd
                  && r.s.mockTs == (if s.state == SendFollowUp || s.rcvdTs then s.mockTs else 0)
                  && r.s.sequenceId == (if x.fupSent then Next16(s.sequenceId) else s.sequenceId)
                  && r.s.lastState == if x.fupSent then SendFollowUp else Reaction)
            && (SyncDue(s, x) ==>
                  && !r.s.rcvdMd && r.s.state == SendSync && r.s.sequenceId == s.sequenceId && r.s.rcvdTs == s.rcvdTs
                  && r.s.sentTime == (if sync then x.now else s.sentTime)
                  && r.s.mockTs == (if x.outcome.SentWithoutTimestamp? then x.outcome.ts else s.mockTs)
                  && r.s.lastState == if sync then SendSync else Reaction)
            && (!FollowUpDue(s) && !SyncDue(s, x) && s.enabled && s.state != Init && s.lastState == s.state ==> r.s == s)
            && (!s.enabled || s.state == Init || (s.state == Initializing && s.lastState != s.state) ==>
                  !r.s.rcvdMd && !r.s.rcvdTs && r.s.sequenceId == x.random && r.s.state == r.s.lastState == Initializing)
  {
    hide Minus;
    hide Next16;
    var t := Enter(s);
    var r1 := Iterate(t, x);
    if !(r1.ends || Done(r1.s)) {
      assert Loop(t, x) == Loop(r1.s, x);
    }
  }

  /** The machine after the first `k` events. */
  function After(evs: seq<Event>, k: nat): Tx
    requires k <= |evs|
  {
    if k == 0 then INITIAL else Step(After(evs, k - 1), evs[k - 1]).0
  }

  function OutAt(evs: seq<Event>, k: nat): Out
    requires k < |evs|
  {
    Step(After(evs, k), evs[k]).1
  }

  /** The last MDSync given in the first `k` events. */
  function LastMd(evs: seq<Event>, k: nat): T.MDSync
    requires k <= |evs|
  {
    if k == 0 then NO_MD else if evs[k - 1].MdSync? then evs[k - 1].md else LastMd(evs, k - 1)
  }

  lemma StepSends(s: Tx, ev: Event)
    requires Rest(s)
    ensures var (t, out) := Step(s, ev);
            && Rest(t) && t.md == (if ev.MdSync? then ev.md else s.md)
            && match out
               case Nothing => Awaits(t) ==> Awaits(s) && t.sequenceId == s.sequenceId
               case SyncOut(q, md) => s.enabled && q == s.sequenceId == t.sequenceId && md == t.md && Awaits(t)
               case FupOut(q, md, ts) => s.enabled && q == s.sequenceId && md == t.md && Awaits(s) && !Awaits(t) && ts == t.syncTs
  {
    hide Call;
    match ev
    case MdSync(md, x) => CallSends(s.(rcvdMd := true, md := md), x);
    case TxTimestamp(ts, _, x) => CallSends(s.(rcvdTs := true, syncTs := ts), x);
    case Timeout(x) => CallSends(s, x);
    case Enable(on) =>
  }

  lemma {:induction false} AlwaysRests(evs: seq<Event>, k: nat)
    requires k <= |evs|
    ensures Rest(After(evs, k)) && After(evs, k).md == LastMd(evs, k)
  {
    hide Step;
    if k > 0 {
      AlwaysRests(evs, k - 1);
      StepSends(After(evs, k - 1), evs[k - 1]);
    }
  }

  /** `j` sent a Sync with number `q`, and nothing was sent between `j` and `k`. */
  predicate SentLast(evs: seq<Event>, j: nat, k: nat, q: uint16) {
    && j < k <= |evs| && OutAt(evs, j).SyncOut? && OutAt(evs, j).sequenceId == q
    && forall i :: j < i < k ==> OutAt(evs, i) == Nothing
  }

  lemma {:induction false} AwaitedSync(evs: seq<Event>, k: nat) returns (j: nat)
    requires k <= |evs| && Awaits(After(evs, k))
    ensures SentLast(evs, j, k, After(evs, k).sequenceId)
  {
    assert k > 0;
    hide Step;
    AlwaysRests(evs, k - 1);
    StepSends(After(evs, k - 1), evs[k - 1]);
    if OutAt(evs, k - 1) == Nothing { j := AwaitedSync(evs, k - 1); } else { j := k - 1; }
  }

  /** Each Follow_Up has the number of the last Sync sent, and nothing was sent in between: no Sync gets
      two. It tells of the last MDSync given, which is that of its Sync unless a newer one came. */
  lemma FollowUpOfLastSync(evs: seq<Event>, k: nat) returns (j: nat)
    requires k < |evs| && OutAt(evs, k).FupOut?
    ensures SentLast(evs, j, k, OutAt(evs, k).sequenceId)
    ensures OutAt(evs, k).md == LastMd(evs, k + 1) && OutAt(evs, j).md == LastMd(evs, j + 1)
    ensures (forall i :: j < i <= k ==> !evs[i].MdSync?) ==> OutAt(evs, k).md == OutAt(evs, j).md
  {
    hide Step;
    AlwaysRests(evs, k);
    AlwaysRests(evs, k + 1);
    StepSends(After(evs, k), evs[k]);
    j := AwaitedSync(evs, k);
    AlwaysRests(evs, j);
    AlwaysRests(evs, j + 1);
    StepSends(After(evs, j), evs[j]);
    if forall i :: j < i <= k ==> !evs[i].MdSync? { SameMd(evs, j + 1, k + 1); }
  }

  lemma {:induction false} SameMd(evs: seq<Event>, j: nat, k: nat)
    requires j <= k <= |evs| && forall i :: j <= i < k ==> !evs[i].MdSync?
    ensures LastMd(evs, k) == LastMd(evs, j)
  {
    if j < k { SameMd(evs, j, k - 1); }
  }

  // ------------------------------------------------------------------ whose timestamp a Follow_Up carries

  /** The last timestamp given in the first `k` events, or -1. */
  function LastStamp(evs: seq<Event>, k: nat): (i: int)
    requires k <= |evs|
    ensures -1 <= i < k
    ensures i >= 0 ==> evs[i].TxTimestamp?
    ensures forall n :: i < n < k ==> !evs[n].TxTimestamp?
  {
    if k == 0 then -1 else if evs[k - 1].TxTimestamp? then k - 1 else LastStamp(evs, k - 1)
  }

  /** A Sync sent at event `i` gets its timestamp not from the network, but from the software clock. */
  predicate SoftwareStamped(evs: seq<Event>, i: nat)
    requires i < |evs|
  {
    !evs[i].Enable? && OutAt(evs, i).SyncOut? && evs[i].x.outcome.SentWithoutTimestamp? && evs[i].x.outcome.ts != 0
  }

  /** A timestamp given by the network at event `i`, or by the software clock at the sending of event `i`. */
  datatype Stamp = FromNetwork(i: nat) | FromSoftware(i: nat)

  predicate Given(evs: seq<Event>, st: Stamp, k: nat)
    requires k <= |evs|
  {
    st.i < k && match st
                case FromNetwork(i) => evs[i].TxTimestamp?
                case FromSoftware(i) => SoftwareStamped(evs, i)
  }

  function ValueOf(evs: seq<Event>, st: Stamp): uint64
    requires Given(evs, st, |evs|)
  {
    match st
    case FromNetwork(i) => evs[i].ts
    case FromSoftware(i) => evs[i].x.outcome.ts
  }

  /** The event that sent the Sync it was taken of. */
  function SyncOf(evs: seq<Event>, st: Stamp): nat
    requires Given(evs, st, |evs|)
  {
    match st
    case FromNetwork(i) => evs[i].sync
    case FromSoftware(i) => i
  }

  /** A timestamp pending for the Follow_Up, at a waiting machine. */
  function Pending(s: Tx): uint64 {
    if s.state == SendFollowUp then s.syncTs else if s.rcvdTs then s.syncTs else s.mockTs
  }

  /** What a call does with timestamps. */
  lemma CallStamps(s: Tx, x: Ambient)
    requires Rest(s)
    ensures var r := Call(s, x);
            && (r.s.rcvdTs ==> s.rcvdTs && r.s.syncTs == s.syncTs)
            && (r.s.mockTs == s.mockTs || r.s.mockTs == 0 ||
                (r.out.SyncOut? && x.outcome.SentWithoutTimestamp? && r.s.mockTs == x.outcome.ts))
            && match r.out
               case Nothing =>
                 Awaits(r.s) ==>
                   && Pending(r.s) == Pending(s)
                   && (if r.s.state == SendSync then r.s.rcvdTs == s.rcvdTs == false && r.s.mockTs == s.mockTs && s.state == SendSync
                       else s.state == SendSync ==> s.rcvdTs || s.mockTs != 0)
               case SyncOut(_, _) =>
                 r.s.state == SendSync && r.s.mockTs == if x.outcome.SentWithoutTimestamp? then x.outcome.ts else s.mockTs
               case FupOut(_, _, ts) => ts == Pending(s) && (s.state == SendSync ==> s.rcvdTs || s.mockTs != 0)
  {
    var t := Enter(s);
    var r1 := Iterate(t, x);
    if !(r1.ends || Done(r1.s)) {
      assert Loop(t, x) == Loop(r1.s, x);
    }
  }

  /** What becomes of the timestamp while the Follow_Up of the Sync sent at `j` is due. */
  ghost predicate Held(evs: seq<Event>, j: nat, k: nat)
    requires j < k <= |evs|
  {
    var s, b, i := After(evs, k), After(evs, j + 1), LastStamp(evs, k);
    if i > j then s.state == SendFollowUp && s.syncTs == evs[i].ts
    else
      && Pending(s) == Pending(b)
      && if s.state == SendSync then s.rcvdTs == b.rcvdTs && s.mockTs == b.mockTs else b.rcvdTs || b.mockTs != 0
  }

  lemma HeldStep(evs: seq<Event>, j: nat, k: nat)
    requires j < k < |evs| && Rest(After(evs, k)) && Awaits(After(evs, k)) && Held(evs, j, k)
    requires OutAt(evs, k) == Nothing && Awaits(After(evs, k + 1))
    ensures Held(evs, j, k + 1)
  {
    hide Call;
    var s := After(evs, k);
    match evs[k]
    case MdSync(md, x) => CallStamps(s.(rcvdMd := true, md := md), x);
    case TxTimestamp(ts, _, x) => CallStamps(s.(rcvdTs := true, syncTs := ts), x);
    case Timeout(x) => CallStamps(s, x);
    case Enable(on) =>
  }

  lemma {:induction false} StampHeld(evs: seq<Event>, j: nat, k: nat)
    requires j < k <= |evs| && OutAt(evs, j).SyncOut? && (forall i :: j < i < k ==> OutAt(evs, i) == Nothing)
    requires Awaits(After(evs, k))
    ensures Held(evs, j, k)
  {
    hide Step;
    AlwaysRests(evs, k - 1);
    if k == j + 1 {
      SyncWaits(evs, j);
    } else {
      StepSends(After(evs, k - 1), evs[k - 1]);
      assert OutAt(evs, k - 1) == Nothing;
      StampHeld(evs, j, k - 1);
      HeldStep(evs, j, k - 1);
    }
  }

  /** Just after a Sync is sent. */
  lemma SyncWaits(evs: seq<Event>, j: nat)
    requires j < |evs| && OutAt(evs, j).SyncOut?
    ensures After(evs, j + 1).state == SendSync
    ensures SoftwareStamped(evs, j) ==> After(evs, j + 1).mockTs == evs[j].x.outcome.ts
  {
    hide Call;
    AlwaysRests(evs, j);
    var s := After(evs, j);
    match evs[j]
    case MdSync(md, x) => CallStamps(s.(rcvdMd := true, md := md), x);
    case TxTimestamp(ts, _, x) => CallStamps(s.(rcvdTs := true, syncTs := ts), x);
    case Timeout(x) => CallStamps(s, x);
    case Enable(on) =>
  }

  /** Where the timestamps that a machine holds come from. */
  lemma {:induction false} StampGiven(evs: seq<Event>, k: nat)
    requires k <= |evs| && After(evs, k).rcvdTs
    ensures LastStamp(evs, k) >= 0 && After(evs, k).syncTs == evs[LastStamp(evs, k)].ts
  {
    hide Call;
    assert k > 0;
    var s := After(evs, k - 1);
    AlwaysRests(evs, k - 1);
    match evs[k - 1]
    case MdSync(md, x) =>
      CallStamps(s.(rcvdMd := true, md := md), x);
      StampGiven(evs, k - 1);
    case TxTimestamp(ts, _, x) => CallStamps(s.(rcvdTs := true, syncTs := ts), x);
    case Timeout(x) =>
      CallStamps(s, x);
      StampGiven(evs, k - 1);
    case Enable(on) => StampGiven(evs, k - 1);
  }

  lemma SoftwareStep(evs: seq<Event>, k: nat)
    requires k < |evs| && After(evs, k + 1).mockTs != 0
    ensures SoftwareStamped(evs, k) || After(evs, k + 1).mockTs == After(evs, k).mockTs
    ensures SoftwareStamped(evs, k) ==> evs[k].x.outcome.ts == After(evs, k + 1).mockTs
  {
    hide Call;
    AlwaysRests(evs, k);
    var s := After(evs, k);
    match evs[k]
    case MdSync(md, x) => CallStamps(s.(rcvdMd := true, md := md), x);
    case TxTimestamp(ts, _, x) => CallStamps(s.(rcvdTs := true, syncTs := ts), x);
    case Timeout(x) => CallStamps(s, x);
    case Enable(on) =>
  }

  lemma {:induction false} SoftwareGiven(evs: seq<Event>, k: nat) returns (i: nat)
    requires k <= |evs| && After(evs, k).mockTs != 0
    ensures i < k && SoftwareStamped(evs, i) && evs[i].x.outcome.ts == After(evs, k).mockTs
    ensures SoftwareStamped(evs, k - 1) ==> i == k - 1
  {
    hide Step;
    assert k > 0;
    SoftwareStep(evs, k - 1);
    if SoftwareStamped(evs, k - 1) { i := k - 1; } else { i := SoftwareGiven(evs, k - 1); }
  }

  /** Timestamps are of Syncs sent before. */
  predicate Sane(evs: seq<Event>) { forall i :: 0 <= i < |evs| && evs[i].TxTimestamp? ==> evs[i].sync < i }

  /** When the Follow_Up sent at `k` carries the timestamp of its own Sync, sent at `j`: the last
      timestamp given since is of that Sync; or none was given since, none was left over when the
      Sync was sent, and the software clock gave one. */
  predicate CarriesOwn(evs: seq<Event>, j: nat, k: nat)
    requires j < k < |evs|
  {
    var i := LastStamp(evs, k + 1);
    if i > j then evs[i].sync == j else !After(evs, j + 1).rcvdTs && SoftwareStamped(evs, j)
  }

  /** Each Follow_Up carries a timestamp that was given; it is that of its own Sync exactly on this condition. */
  lemma FollowUpStamp(evs: seq<Event>, k: nat) returns (j: nat, st: Stamp)
    requires k < |evs| && OutAt(evs, k).FupOut?
    ensures SentLast(evs, j, k, OutAt(evs, k).sequenceId)
    ensures Given(evs, st, k + 1) && OutAt(evs, k).ts == ValueOf(evs, st)
    ensures Sane(evs) ==> (SyncOf(evs, st) == j <==> CarriesOwn(evs, j, k))
  {
    hide Step;
    j := FollowUpOfLastSync(evs, k);
    AlwaysRests(evs, k);
    StepSends(After(evs, k), evs[k]);
    StampHeld(evs, j, k);
    FollowUpPending(evs, k);
    var i, b := LastStamp(evs, k + 1), After(evs, j + 1);
    SyncWaits(evs, j);
    if i > j {
      st := FromNetwork(i);
    } else if b.rcvdTs {
      StampGiven(evs, j + 1);
      st := FromNetwork(LastStamp(evs, j + 1));
    } else {
      var n := SoftwareGiven(evs, j + 1);
      st := FromSoftware(n);
    }
  }

  lemma FollowUpPending(evs: seq<Event>, k: nat)
    requires k < |evs| && OutAt(evs, k).FupOut? && Rest(After(evs, k))
    ensures OutAt(evs, k).ts == if evs[k].TxTimestamp? then evs[k].ts else Pending(After(evs, k))
    ensures !evs[k].TxTimestamp? && After(evs, k).state == SendSync ==> After(evs, k).rcvdTs || After(evs, k).mockTs != 0
  {
    hide Call;
    var s := After(evs, k);
    match evs[k]
    case MdSync(md, x) => CallStamps(s.(rcvdMd := true, md := md), x);
    case TxTimestamp(ts, _, x) => CallStamps(s.(rcvdTs := true, syncTs := ts), x);
    case Timeout(x) => CallStamps(s, x);
    case Enable(on) =>
  }

  lemma OnePass(s: Tx, x: Ambient)
    requires !Iterate(s, x).ends && !Done(Iterate(s, x).s)
    ensures Loop(s, x) == Loop(Iterate(s, x).s, x)
  {}

  lemma StampTaken(s: Tx, md: T.MDSync, x: Ambient)
    requires s.enabled && s.state == s.lastState && (s.state == Initializing || s.state == SendFollowUp) && x.outcome == Sent
    ensures Step(s, MdSync(md, x)) ==
              (s.(rcvdMd := false, md := md, sentTime := x.now, state := SendSync, lastState := SendSync), SyncOut(s.sequenceId, md))
  {
    OnePass(s.(rcvdMd := true, md := md), x);
  }

  lemma StampSent(s: Tx, x: Ambient)
    requires s.enabled && s.state == s.lastState == SendSync && s.rcvdTs && x.fupSent
    ensures Call(s, x) ==
              Passed(s.(rcvdTs := false, sequenceId := Next16(s.sequenceId), state := SendFollowUp, lastState := SendFollowUp),
                     true, FupOut(s.sequenceId, s.md, s.syncTs))
  {
    OnePass(s, x);
  }

  /** For instance: a timestamp given twice is left over for the next Sync, whose Follow_Up carries it. */
  lemma StampLeftOver(md: T.MDSync, next: T.MDSync, x: Ambient, ts: uint64, late: uint64)
    requires x.outcome == Sent && x.fupSent
    ensures var evs := [Enable(true), Timeout(x), MdSync(md, x), TxTimestamp(ts, 2, x), TxTimestamp(late, 2, x),
                        MdSync(next, x), Timeout(x)];
            && OutAt(evs, 2) == SyncOut(x.random, md) && OutAt(evs, 3) == FupOut(x.random, md, ts)
            && OutAt(evs, 5) == SyncOut(Next16(x.random), next) && OutAt(evs, 6) == FupOut(Next16(x.random), next, late)
            && Sane(evs) && !CarriesOwn(evs, 5, 6)
  {
    hide Loop;
    hide Next16;
    var evs := [Enable(true), Timeout(x), MdSync(md, x), TxTimestamp(ts, 2, x), TxTimestamp(late, 2, x), MdSync(next, x), Timeout(x)];
    var s1 := INITIAL.(enabled := true);
    var s2 := s1.(sequenceId := x.random, state := Initializing, lastState := Initializing);
    assert After(evs, 1) == s1;
    FirstCall(s1, x);
    assert After(evs, 2) == s2;
    StampTaken(s2, md, x);
    var s3 := s2.(md := md, sentTime := x.now, state := SendSync, lastState := SendSync);
    assert After(evs, 3) == s3;
    StampSent(s3.(rcvdTs := true, syncTs := ts), x);
    var s4 := s3.(syncTs := ts, sequenceId := Next16(x.random), state := SendFollowUp, lastState := SendFollowUp);
    assert After(evs, 4) == s4;
    IdleCall(s4.(rcvdTs := true, syncTs := late), x);
    var s5 := s4.(rcvdTs := true, syncTs := late);
    assert After(evs, 5) == s5;
    StampTaken(s5, next, x);
    var s6 := s5.(md := next, sentTime := x.now, state := SendSync, lastState := SendSync);
    assert After(evs, 6) == s6;
    StampSent(s6, x);
    LastStampIs(evs, 7, 4);
  }

  lemma FirstCall(s: Tx, x: Ambient)
    requires s == INITIAL.(enabled := true)
    ensures Call(s, x) == Passed(s.(sequenceId := x.random, state := Initializing, lastState := Initializing), false, Nothing)
  {
    OnePass(s, x);
  }

  lemma IdleCall(s: Tx, x: Ambient)
    requires s.enabled && s.state == s.lastState == SendFollowUp && !s.rcvdMd
    ensures Call(s, x) == Passed(s, false, Nothing)
  {}

  lemma LastStampIs(evs: seq<Event>, k: nat, i: nat)
    requires i < k <= |evs| && evs[i].TxTimestamp? && forall n :: i < n < k ==> !evs[n].TxTimestamp?
    ensures LastStamp(evs, k) == i
  {}
}

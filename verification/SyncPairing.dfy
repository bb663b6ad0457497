/** Pairing of Sync and Follow_Up on one port (md_sync_receive_sm.c): the machine as a class, its
    passes as functions, and what its results are over every order of events. One-step reception
    is off. */
module SyncPairing {
  import opened Words
  import opened Priority
  import opened BmcsState
  import I = PortInformation

  datatype SyncMsg = SyncMsg(
    sequenceId: uint16, twoStep: bool, domainNumber: uint8, source: PortIdentity,
    correction: int, logMessageInterval: int)

  datatype FupMsg = FupMsg(
    sequenceId: uint16, correction: int, originSeconds: nat, originNanoseconds: nat,
    cumulativeScaledRateOffset: int32)

  /** What the machine passes up: the two messages it combines and the reception time it uses. */
  datatype Pair = Pair(sync: SyncMsg, rts: nat, fup: FupMsg)

  datatype RxState = Init | Discard | WaitingForFollowUp | WaitingForSync | Reaction

  datatype RxRecord = RxRecord(
    enabled: bool,                  // portOper, ptpPortEnabled and asCapable
    rcvdSync: bool, sync: Option<SyncMsg>, rts: nat,
    rcvdFup: bool, fup: Option<FupMsg>,
    deadline: nat,                  // followUpReceiptTimeoutTime
    state: RxState, lastState: RxState)

  const INITIAL: RxRecord := RxRecord(false, false, None, 0, false, None, 0, Init, Init)

  /** The flags say that the buffers hold a message, and a waiting machine has its Sync. */
  predicate Sound(s: RxRecord) {
    && (s.rcvdSync ==> s.sync.Some?)
    && (s.rcvdFup ==> s.fup.Some?)
    && (s.state == WaitingForFollowUp || s.state == WaitingForSync ==> s.sync.Some?)
    && (s.state == WaitingForSync && s.lastState != s.state ==> s.fup.Some?)
  }

  type Rx = s: RxRecord | Sound(s) witness INITIAL

  // ------------------------------------------------------------------ one pass

  function Enter(s: Rx): Rx {
    if !s.enabled then s.(lastState := Reaction, state := Discard) else s
  }

  function DiscardCondition(s: Rx): Rx
    requires s.state == Discard
  {
    if s.rcvdSync && s.enabled && !s.sync.value.twoStep then s.(lastState := Reaction)
    else if s.rcvdSync && s.enabled && s.sync.value.twoStep then s.(state := WaitingForFollowUp)
    else s
  }

  function WaitingForFollowUpProc(s: Rx, now: nat): (r: Rx)
    requires s.state == WaitingForFollowUp
    ensures r.state == WaitingForFollowUp
  {
    s.(rcvdSync := false, deadline := now + I.LogToNsec(s.sync.value.logMessageInterval))
  }

  function WaitingForFollowUpCondition(s: Rx, now: nat): Rx
    requires s.state == WaitingForFollowUp && s.lastState == s.state
  {
    if s.rcvdSync && s.enabled && s.sync.value.twoStep then s.(lastState := Reaction)
    else if s.rcvdFup && s.fup.value.sequenceId == s.sync.value.sequenceId then s.(state := WaitingForSync)
    else
      var t := s.(rcvdFup := false);
      if now >= t.deadline || (t.rcvdSync && t.enabled && !t.sync.value.twoStep) then t.(state := Discard) else t
  }

  function WaitingForSyncCondition(s: Rx): Rx
    requires s.state == WaitingForSync && s.lastState == s.state
  {
    if s.rcvdSync && s.enabled then
      if s.sync.value.twoStep then s.(state := WaitingForFollowUp) else s.(state := Discard)
    else s.(rcvdFup := false)
  }

  /** One pass of the dispatch loop, and what it hands back. */
  function Iterate(s: Rx, now: nat): (Rx, Option<Pair>) {
    var change := s.lastState != s.state;
    var t := s.(lastState := s.state);
    match s.state
    case Init => (t.(state := Discard), None)
    case Discard => (DiscardCondition(if change then t.(rcvdSync := false, rcvdFup := false) else t), None)
    case WaitingForFollowUp =>
      (WaitingForFollowUpCondition(if change then WaitingForFollowUpProc(t, now) else t, now), None)
    case WaitingForSync =>
      if change then
        (WaitingForSyncCondition(t.(rcvdSync := false, rcvdFup := false)),
         Some(Pair(t.sync.value, t.rts, t.fup.value)))
      else (WaitingForSyncCondition(t), None)
    case Reaction => (t, None)
  }

  predicate Done(s: Rx) { s.lastState == s.state }

  function Measure(s: Rx): nat {
    (if s.rcvdSync then 20 else 0) + (if Done(s) then 8 else 0) +
    match s.state
    case Init => 5
    case WaitingForFollowUp => 3
    case WaitingForSync => 2
    case Discard => 1
    case Reaction => 0
  }

  /** The dispatch loop ends from every state, whatever has been received. */
  lemma IterateDecreases(s: Rx, now: nat)
    ensures var r := Iterate(s, now); r.1.Some? || Done(r.0) || Measure(r.0) < Measure(s)
  {}

  function Loop(s: Rx, now: nat): (Rx, Option<Pair>)
    decreases Measure(s)
  {
    IterateDecreases(s, now);
    var r := Iterate(s, now);
    if r.1.Some? || Done(r.0) then r else Loop(r.0, now)
  }

  function Call(s: Rx, now: nat): (Rx, Option<Pair>) {
    Loop(Enter(s), now)
  }

  // ------------------------------------------------------------------ the machine

  class SyncReceiver {
    var enabled: bool
    var rcvdSync: bool
    var recSync: Option<SyncMsg>
    var rts: nat
    var rcvdFup: bool
    var recFollowUp: Option<FupMsg>
    var deadline: nat
    var state: RxState
    var lastState: RxState

    ghost function Snapshot(): RxRecord
      reads this
    {
      RxRecord(enabled, rcvdSync, recSync, rts, rcvdFup, recFollowUp, deadline, state, lastState)
    }

    constructor ()
      ensures Snapshot() == INITIAL
    {
      enabled, rcvdSync, recSync, rts := false, false, None, 0;
      rcvdFup, recFollowUp, deadline := false, None, 0;
      state, lastState := Init, Init;
    }

    method DiscardPass(change: bool)
      requires Sound(Snapshot()) && state == Discard && lastState == state
      modifies this
      ensures Snapshot() == DiscardCondition(
                if change then old(Snapshot()).(rcvdSync := false, rcvdFup := false) else old(Snapshot()))
    {
      if change { rcvdSync, rcvdFup := false, false; }
      if rcvdSync && enabled && !recSync.value.twoStep {
        lastState := Reaction;
      } else if rcvdSync && enabled && recSync.value.twoStep {
        state := WaitingForFollowUp;
      }
    }

    method WaitingForFollowUpPass(change: bool, now: nat)
      requires Sound(Snapshot()) && state == WaitingForFollowUp && lastState == state
      modifies this
      ensures Snapshot() == WaitingForFollowUpCondition(
                if change then WaitingForFollowUpProc(old(Snapshot()), now) else old(Snapshot()), now)
    {
      if change {
        rcvdSync := false;
        deadline := now + I.LogToNsec(recSync.value.logMessageInterval);
      }
      if rcvdSync && enabled && recSync.value.twoStep {
        lastState := Reaction;
        return;
      }
      if rcvdFup {
        if recFollowUp.value.sequenceId == recSync.value.sequenceId {
          state := WaitingForSync;
          return;
        }
        rcvdFup := false;
      }
      if now >= deadline || (rcvdSync && enabled && !recSync.value.twoStep) {
        state := Discard;
      }
    }

    method WaitingForSyncPass(change: bool) returns (out: Option<Pair>)
      requires Sound(Snapshot()) && state == WaitingForSync && lastState == state
      requires change ==> recFollowUp.Some?
      modifies this
      ensures Snapshot() == WaitingForSyncCondition(
                if change then old(Snapshot()).(rcvdSync := false, rcvdFup := false) else old(Snapshot()))
      ensures out == if change then Some(Pair(old(recSync).value, old(rts), old(recFollowUp).value)) else None
    {
      out := None;
      if change {
        rcvdSync, rcvdFup := false, false;
        out := Some(Pair(recSync.value, rts, recFollowUp.value));
      }
      if rcvdSync && enabled && recSync.value.twoStep {
        state := WaitingForFollowUp;
      } else if rcvdSync && enabled && !recSync.value.twoStep {
        state := Discard;
      } else {
        rcvdFup := false;
      }
    }

    /** One pass through the body of the dispatch loop. */
    method Pass(now: nat) returns (out: Option<Pair>)
      requires Sound(Snapshot())
      modifies this
      ensures (Snapshot(), out) == Iterate(old(Snapshot()), now)
    {
      out := None;
      var change := lastState != state;
      lastState := state;
      match state {
        case Init => state := Discard;
        case Discard => DiscardPass(change);
        case WaitingForFollowUp => WaitingForFollowUpPass(change, now);
        case WaitingForSync => out := WaitingForSyncPass(change);
        case Reaction =>
      }
    }

    /** md_sync_receive_sm */
    method Run(now: nat) returns (out: Option<Pair>)
      requires Sound(Snapshot())
      modifies this
      ensures (Snapshot(), out) == Call(old(Snapshot()), now)
    {
      ghost var r := Call(Snapshot(), now);
      if !enabled { lastState, state := Reaction, Discard; }
      out := None;
      while true
        invariant Sound(Snapshot()) && Loop(Snapshot(), now) == r && out == None
        decreases Measure(Snapshot())
      {
        IterateDecreases(Snapshot(), now);
        out := Pass(now);
        if out.Some? { return; }
        if lastState == state { break; }
      }
    }

    /** md_sync_receive_sm_recv_sync: what the machine hands back is not looked at. */
    method RecvSync(m: SyncMsg, ts: nat, now: nat)
      requires Sound(Snapshot())
      modifies this
      ensures (Snapshot(), None) == Step(old(Snapshot()), SyncArrives(m, ts, now))
    {
      rcvdSync, recSync, rts := true, Some(m), ts;
      var ignored := Run(now);
    }

    /** md_sync_receive_sm_recv_fup */
    method RecvFup(f: FupMsg, now: nat) returns (out: Option<Pair>)
      requires Sound(Snapshot())
      modifies this
      ensures (Snapshot(), out) == Step(old(Snapshot()), FupArrives(f, now))
    {
      rcvdFup, recFollowUp := true, Some(f);
      out := Run(now);
    }
  }

  // ------------------------------------------------------------------ events

  datatype Event =
    | SyncArrives(m: SyncMsg, ts: nat, now: nat)
    | FupArrives(f: FupMsg, now: nat)
    | Timeout(now: nat)
    | Enable(on: bool)

  /** One event and the pair passed up on it. Only the arrival of a Follow_Up passes anything up. */
  function Step(s: Rx, ev: Event): (Rx, Option<Pair>) {
    match ev
    case SyncArrives(m, ts, now) => (Call(s.(rcvdSync := true, sync := Some(m), rts := ts), now).0, None)
    case FupArrives(f, now) => Call(s.(rcvdFup := true, fup := Some(f)), now)
    case Timeout(now) => (Call(s, now).0, None)
    case Enable(on) => (s.(enabled := on), None)
  }

  /** Between events. A Follow_Up is kept only while Syncs are discarded. */
  predicate Rest(s: Rx) {
    && Done(s) && s.state != Reaction && !s.rcvdSync
    && (s.state != Discard ==> !s.rcvdFup)
    && (s.state == WaitingForFollowUp ==> s.sync.value.twoStep)
  }

  predicate Active(s: Rx) { s.enabled && s.state != Init }

  function Dropped(s: Rx): Rx {
    s.(rcvdSync := false, rcvdFup := false, state := Discard, lastState := Discard)
  }

  predicate Matches(s: Rx) {
    s.rcvdFup && s.fup.Some? && s.sync.Some? && s.fup.value.sequenceId == s.sync.value.sequenceId
  }

  /** A two-step Sync starts a wait, unless its Follow_Up came first: then both are used up. */
  function SyncTaken(t: Rx, now: nat): Rx
    requires t.sync.Some?
  {
    var deadline := now + I.LogToNsec(t.sync.value.logMessageInterval);
    var w := t.(rcvdSync := false, rcvdFup := false, deadline := deadline);
    if Matches(t) then w.(state := WaitingForSync, lastState := WaitingForSync)
    else if now >= deadline then w.(state := Discard, lastState := Discard)
    else w.(state := WaitingForFollowUp, lastState := WaitingForFollowUp)
  }

  lemma SyncStep(s: Rx, m: SyncMsg, ts: nat, now: nat)
    requires Rest(s)
    ensures var t := s.(rcvdSync := true, sync := Some(m), rts := ts);
            Step(s, SyncArrives(m, ts, now)).0 == if Active(s) && m.twoStep then SyncTaken(t, now) else Dropped(t)
  {
    var t := Enter(s.(rcvdSync := true, sync := Some(m), rts := ts));
    var t1 := Iterate(t, now).0;
    var t2 := Iterate(t1, now).0;
    if !Done(t1) {
      assert Loop(t, now) == Loop(t1, now);
      if !Done(t2) { assert Loop(t1, now) == Loop(t2, now); }
    }
  }

  /** A Follow_Up completes a waiting Sync exactly when their sequence numbers agree. */
  function FupTaken(t: Rx, now: nat): (Rx, Option<Pair>)
    requires t.sync.Some? && t.fup.Some?
  {
    if Matches(t) then
      (t.(rcvdFup := false, state := WaitingForSync, lastState := WaitingForSync),
       Some(Pair(t.sync.value, t.rts, t.fup.value)))
    else if now >= t.deadline then (Dropped(t), None)
    else (t.(rcvdFup := false), None)
  }

  lemma FupStep(s: Rx, f: FupMsg, now: nat)
    requires Rest(s)
    ensures var t := s.(rcvdFup := true, fup := Some(f));
            Step(s, FupArrives(f, now)) ==
              if !Active(s) then (Dropped(t), None)
              else match s.state
                case WaitingForFollowUp => FupTaken(t, now)
                case WaitingForSync => (t.(rcvdFup := false), None)
                case _ => (t, None)
  {
    var t := Enter(s.(rcvdFup := true, fup := Some(f)));
    var t1 := Iterate(t, now).0;
    if !Done(t1) { assert Loop(t, now) == Loop(t1, now); }
  }

  lemma TimeoutStep(s: Rx, now: nat)
    requires Rest(s)
    ensures Step(s, Timeout(now)).0 ==
              if !Active(s) || (s.state == WaitingForFollowUp && now >= s.deadline) then Dropped(s) else s
  {
    var t := Enter(s);
    var t1 := Iterate(t, now).0;
    if !Done(t1) { assert Loop(t, now) == Loop(t1, now); }
  }

  lemma StepRests(s: Rx, ev: Event)
    requires Rest(s)
    ensures Rest(Step(s, ev).0)
  {
    match ev
    case SyncArrives(m, ts, now) => SyncStep(s, m, ts, now);
    case FupArrives(f, now) => FupStep(s, f, now);
    case Timeout(now) => TimeoutStep(s, now);
    case Enable(on) =>
  }

  // ------------------------------------------------------------------ every order of events

  /** The machine after the first `k` events. */
  function After(evs: seq<Event>, k: nat): (s: Rx)
    requires k <= |evs|
    ensures Rest(s)
  {
    if k == 0 then INITIAL
    else
      StepRests(After(evs, k - 1), evs[k - 1]);
      Step(After(evs, k - 1), evs[k - 1]).0
  }

  /** What is passed up on event `k`. */
  function PassedUp(evs: seq<Event>, k: nat): Option<Pair>
    requires k < |evs|
  {
    Step(After(evs, k), evs[k]).1
  }

  /** The last Sync received before event `k`, or -1. */
  function LastSync(evs: seq<Event>, k: nat): (j: int)
    requires k <= |evs|
    ensures -1 <= j < k
    ensures j >= 0 ==> evs[j].SyncArrives?
    ensures forall i :: j < i < k ==> !evs[i].SyncArrives?
  {
    if k == 0 then -1 else if evs[k - 1].SyncArrives? then k - 1 else LastSync(evs, k - 1)
  }

  /** The wait that the machine is in: it holds the last Sync received, as it was received. */
  ghost predicate Holds(evs: seq<Event>, k: nat)
    requires k <= |evs|
  {
    var s, j := After(evs, k), LastSync(evs, k);
    && j >= 0 && s.sync == Some(evs[j].m) && s.rts == evs[j].ts
    && s.deadline == evs[j].now + I.LogToNsec(evs[j].m.logMessageInterval)
  }

  /** How a wait can be reached: by a Sync, or from a wait, nothing being passed up. */
  lemma IntoWait(evs: seq<Event>, k: nat)
    requires k < |evs| && After(evs, k + 1).state == WaitingForFollowUp
    ensures PassedUp(evs, k).None?
    ensures !evs[k].SyncArrives? ==> After(evs, k).state == WaitingForFollowUp
    ensures var s, t := After(evs, k), After(evs, k + 1);
            match evs[k]
            case SyncArrives(m, ts, now) =>
              t.sync == Some(m) && t.rts == ts && t.deadline == now + I.LogToNsec(m.logMessageInterval)
            case _ => t.sync == s.sync && t.rts == s.rts && t.deadline == s.deadline
  {
    var s := After(evs, k);
    match evs[k]
    case SyncArrives(m, ts, now) => SyncStep(s, m, ts, now);
    case FupArrives(f, now) => FupStep(s, f, now);
    case Timeout(now) => TimeoutStep(s, now);
    case Enable(on) =>
  }

  lemma {:induction false} WaitingHolds(evs: seq<Event>, k: nat)
    requires k <= |evs| && After(evs, k).state == WaitingForFollowUp
    ensures Holds(evs, k)
  {
    hide Sound;
    if k > 0 {
      IntoWait(evs, k - 1);
      if !evs[k - 1].SyncArrives? { WaitingHolds(evs, k - 1); }
    }
  }

  lemma {:induction false} NothingSince(evs: seq<Event>, k: nat, i: nat)
    requires k <= |evs| && LastSync(evs, k) < i < k && After(evs, k).state == WaitingForFollowUp
    ensures PassedUp(evs, i).None?
    decreases k
  {
    IntoWait(evs, k - 1);
    if i < k - 1 { NothingSince(evs, k - 1, i); }
  }

  /** Whatever is passed up combines the Follow_Up just received with the last Sync received: they
      have the same sequence number, the Sync announced a Follow_Up, its reception time is the one
      used, and it has been passed up only now. */
  lemma PairIsLastSync(evs: seq<Event>, k: nat)
    requires k < |evs| && PassedUp(evs, k).Some?
    ensures var p, j := PassedUp(evs, k).value, LastSync(evs, k);
            && j >= 0 && p.sync == evs[j].m && p.rts == evs[j].ts && p.sync.twoStep
            && evs[k].FupArrives? && p.fup == evs[k].f && p.fup.sequenceId == p.sync.sequenceId
            && (forall i :: j < i < k ==> PassedUp(evs, i).None?)
  {
    FupStep(After(evs, k), evs[k].f, evs[k].now);
    WaitingHolds(evs, k);
    forall i: nat | LastSync(evs, k) < i < k ensures PassedUp(evs, i).None? { NothingSince(evs, k, i); }
  }

  lemma {:induction false} LastSyncGrows(evs: seq<Event>, k: nat, n: nat)
    requires k <= n <= |evs|
    ensures LastSync(evs, k) <= LastSync(evs, n)
  {
    if k < n { LastSyncGrows(evs, k, n - 1); }
  }

  /** Each Sync is passed up at most once, and Syncs are passed up in the order received. */
  lemma OncePerSync(evs: seq<Event>, k: nat, n: nat)
    requires k < n < |evs| && PassedUp(evs, k).Some? && PassedUp(evs, n).Some?
    ensures LastSync(evs, k) < LastSync(evs, n)
  {
    PairIsLastSync(evs, n);
    LastSyncGrows(evs, k, n);
  }

  // ------------------------------------------------------------------ when a Sync is passed up

  /** Events that leave a wait for the Follow_Up of `m` standing. */
  predicate Harmless(ev: Event, m: SyncMsg, deadline: nat) {
    match ev
    case SyncArrives(_, _, _) => false
    case FupArrives(f, now) => f.sequenceId != m.sequenceId && now < deadline
    case Timeout(now) => now < deadline
    case Enable(on) => false
  }

  /** The machine waits for the Follow_Up of `m`, received at `ts`. */
  predicate WaitsFor(s: Rx, m: SyncMsg, ts: nat, deadline: nat) {
    s.state == WaitingForFollowUp && s.enabled && s.sync == Some(m) && s.rts == ts && s.deadline == deadline
  }

  lemma HarmlessStep(s: Rx, ev: Event, m: SyncMsg, ts: nat, deadline: nat)
    requires Rest(s) && WaitsFor(s, m, ts, deadline) && Harmless(ev, m, deadline)
    ensures WaitsFor(Step(s, ev).0, m, ts, deadline)
  {
    match ev
    case FupArrives(f, now) => FupStep(s, f, now);
    case Timeout(now) => TimeoutStep(s, now);
  }

  lemma {:induction false} WaitStands(evs: seq<Event>, j: nat, k: nat)
    requires j < k <= |evs| && evs[j].SyncArrives? && evs[j].m.twoStep
    requires Active(After(evs, j))
    requires var deadline := evs[j].now + I.LogToNsec(evs[j].m.logMessageInterval);
             evs[j].now < deadline && forall i :: j < i < k ==> Harmless(evs[i], evs[j].m, deadline)
    requires !Matches(After(evs, j).(sync := Some(evs[j].m)))
    ensures WaitsFor(After(evs, k), evs[j].m, evs[j].ts,
                     evs[j].now + I.LogToNsec(evs[j].m.logMessageInterval))
  {
    var s := After(evs, k - 1);
    if k == j + 1 {
      SyncStep(s, evs[j].m, evs[j].ts, evs[j].now);
    } else {
      WaitStands(evs, j, k - 1);
      HarmlessStep(s, evs[k - 1], evs[j].m, evs[j].ts, evs[j].now + I.LogToNsec(evs[j].m.logMessageInterval));
    }
  }

  /** A Sync followed in time by its Follow_Up is passed up, unless a Follow_Up with its number was
      kept from before the Sync: it then takes the Sync with it, and nothing is passed up. */
  lemma FollowedUpIff(evs: seq<Event>, j: nat, k: nat)
    requires j < k < |evs| && evs[j].SyncArrives? && evs[j].m.twoStep
    requires Active(After(evs, j))
    requires var deadline := evs[j].now + I.LogToNsec(evs[j].m.logMessageInterval);
             evs[j].now < deadline && forall i :: j < i < k ==> Harmless(evs[i], evs[j].m, deadline)
    requires evs[k].FupArrives? && evs[k].f.sequenceId == evs[j].m.sequenceId
    ensures PassedUp(evs, k) ==
              if Matches(After(evs, j).(sync := Some(evs[j].m))) then None
              else Some(Pair(evs[j].m, evs[j].ts, evs[k].f))
  {
    if Matches(After(evs, j).(sync := Some(evs[j].m))) {
      EarlyFupLosesSync(evs, j, k);
    } else {
      WaitStands(evs, j, k);
      FupStep(After(evs, k), evs[k].f, evs[k].now);
    }
  }

  lemma TakenStep(s: Rx, ev: Event)
    requires Rest(s) && s.state == WaitingForSync && s.enabled && !ev.SyncArrives? && !ev.Enable?
    ensures Step(s, ev).0.state == WaitingForSync && Step(s, ev).0.enabled && Step(s, ev).1.None?
  {
    match ev
    case FupArrives(f, now) => FupStep(s, f, now);
    case Timeout(now) => TimeoutStep(s, now);
  }

  lemma {:induction false} EarlyFupTakesSync(evs: seq<Event>, j: nat, k: nat)
    requires j < k <= |evs| && evs[j].SyncArrives? && evs[j].m.twoStep && Active(After(evs, j))
    requires forall i :: j < i < k ==> !evs[i].SyncArrives? && !evs[i].Enable?
    requires Matches(After(evs, j).(sync := Some(evs[j].m)))
    ensures After(evs, k).state == WaitingForSync && After(evs, k).enabled
  {
    var s := After(evs, k - 1);
    if k == j + 1 {
      SyncStep(s, evs[j].m, evs[j].ts, evs[j].now);
    } else {
      EarlyFupTakesSync(evs, j, k - 1);
      TakenStep(s, evs[k - 1]);
    }
  }

  lemma EarlyFupLosesSync(evs: seq<Event>, j: nat, k: nat)
    requires j < k < |evs| && evs[j].SyncArrives? && evs[j].m.twoStep && Active(After(evs, j))
    requires forall i :: j < i < k ==> !evs[i].SyncArrives? && !evs[i].Enable?
    requires Matches(After(evs, j).(sync := Some(evs[j].m)))
    ensures PassedUp(evs, k).None?
  {
    EarlyFupTakesSync(evs, j, k);
    if evs[k].FupArrives? { TakenStep(After(evs, k), evs[k]); }
  }

  /** For instance: a Follow_Up overtakes its Sync, and its repetition comes too late. */
  lemma OvertakenSyncIsLost(m: SyncMsg, f: FupMsg)
    requires m.twoStep && f.sequenceId == m.sequenceId
    ensures var evs := [Enable(true), Timeout(0), FupArrives(f, 0), SyncArrives(m, 0, 0), FupArrives(f, 0)];
            PassedUp(evs, 2) == PassedUp(evs, 4) == None
  {
    var evs := [Enable(true), Timeout(0), FupArrives(f, 0), SyncArrives(m, 0, 0), FupArrives(f, 0)];
    var s := INITIAL.(enabled := true);
    assert After(evs, 0) == INITIAL && After(evs, 1) == s;
    TimeoutStep(s, 0);
    assert After(evs, 2) == Dropped(s);
    FupStep(Dropped(s), f, 0);
    assert After(evs, 3) == Dropped(s).(rcvdFup := true, fup := Some(f));
    EarlyFupLosesSync(evs, 3, 4);
  }
}

/** When a port announces (port_announce_transmit_sm.c): the machine, exactly when its dispatch loop
    ends, and that it announces only what the port may transmit. */
module AnnounceTransmit {
  import opened BmcsState
  import opened PathTrace

  const SLOT := 25_000_000                  // announce times are aligned to 25 ms

  datatype TxState = TxInit | TransmitInit | Periodic | Idle | TransmitAnnounce

  datatype Tx = Tx(
    newInfo: bool, slowdown: bool, transmissions: nat, sendTime: nat, interval2: nat, state: TxState, lastState: TxState)

  const INITIAL: Tx := Tx(false, false, 0, 0, 1_000_000_000, TxInit, TxInit)

  /** What the machine sees; `settled` says that the port's state is selected and no update is due. */
  datatype TxEnv = TxEnv(
    capable: bool, master: bool, settled: bool, announceInterval: nat, oldAnnounceInterval: nat, allowed: nat)

  function Aligned(t: nat): nat { t / SLOT * SLOT }

  function IdleCondition(s: Tx, e: TxEnv, now: nat): Tx {
    if s.newInfo && e.master && now < s.sendTime && e.settled then s.(state := TransmitAnnounce)
    else if now >= s.sendTime then s.(state := Periodic)
    else s
  }

  function TransmitAnnounceProc(s: Tx, e: TxEnv): Tx {
    var t := s.(newInfo := false);
    if !t.slowdown then t.(transmissions := 0, interval2 := e.announceInterval)
    else if t.transmissions >= e.allowed then t.(interval2 := e.announceInterval, transmissions := 0, slowdown := false)
    else t.(interval2 := e.oldAnnounceInterval, transmissions := t.transmissions + 1)
  }

  /** One pass, and whether it hands an announce back. */
  function Iterate(s: Tx, e: TxEnv, now: nat): (Tx, bool) {
    var change := s.lastState != s.state;
    var t := s.(lastState := s.state);
    match s.state
    case TxInit => (t.(state := TransmitInit), false)
    case TransmitInit =>
      ((if change then t.(newInfo := true, slowdown := false, transmissions := 0) else t).(state := Idle), false)
    case Periodic => ((if change then t.(newInfo := t.newInfo || e.master) else t).(state := Idle), false)
    case Idle => (IdleCondition(if change then t.(sendTime := Aligned(now + t.interval2)) else t, e, now), false)
    case TransmitAnnounce => ((if change then TransmitAnnounceProc(t, e) else t).(state := Idle), change)
  }

  function Enter(s: Tx, e: TxEnv): Tx { if e.capable then s else s.(state := TransmitInit) }

  predicate Ends(r: (Tx, bool)) { r.1 || r.0.lastState == r.0.state }

  /** The state after `n` passes that do not end the loop, and the pass that follows. */
  function Passes(s: Tx, e: TxEnv, now: nat, n: nat): Tx {
    if n == 0 then s else Iterate(Passes(s, e, now, n - 1), e, now).0
  }

  ghost predicate EndsAt(s: Tx, e: TxEnv, now: nat, n: nat) {
    && Ends(Iterate(Passes(s, e, now, n), e, now))
    && (forall k :: 0 <= k < n ==> !Ends(Iterate(Passes(s, e, now, k), e, now)))
  }

  ghost predicate Terminates(s: Tx, e: TxEnv, now: nat) { exists n: nat :: EndsAt(s, e, now, n) }

  /** States between calls: idle, just transmitted, or never run. */
  predicate AtRest(s: Tx) {
    s.state == s.lastState == TxInit || (s.state == Idle && (s.lastState == Idle || s.lastState == TransmitAnnounce))
  }

  /** The idle state is entered anew unless the machine waits in it for its time to come. */
  predicate EntersIdle(s: Tx, e: TxEnv, now: nat) {
    !(e.capable && s.state == Idle && s.lastState == Idle && now < s.sendTime)
  }

  /** The next announce would be due at once, since its time is rounded down to the past. */
  predicate DueAtOnce(s: Tx, now: nat) { Aligned(now + s.interval2) <= now }

  predicate Cycling(s: Tx, now: nat) {
    (s.state == Idle && (s.lastState != Idle || now >= s.sendTime)) || s.state == Periodic || s.state == TransmitInit ||
    s.state == TxInit
  }

  lemma CycleStep(s: Tx, e: TxEnv, now: nat)
    requires Cycling(s, now) && DueAtOnce(s, now)
    ensures var r := Iterate(s, e, now); !Ends(r) && Cycling(r.0, now) && DueAtOnce(r.0, now)
  {}

  lemma {:induction false} CyclesForever(s: Tx, e: TxEnv, now: nat, n: nat)
    requires Cycling(s, now) && DueAtOnce(s, now)
    ensures Cycling(Passes(s, e, now, n), now) && DueAtOnce(Passes(s, e, now, n), now)
    ensures !Ends(Iterate(Passes(s, e, now, n), e, now))
  {
    if n > 0 { CyclesForever(s, e, now, n - 1); CycleStep(Passes(s, e, now, n - 1), e, now); }
    CycleStep(Passes(s, e, now, n), e, now);
  }

  /** How far the loop can still go once idle times lie in the future. */
  function Rank(s: Tx): nat {
    match s.state
    case TxInit => 7
    case TransmitInit => 6
    case Periodic => 4
    case Idle => if s.lastState == Idle then 5 else 2
    case TransmitAnnounce => 0
  }

  predicate Moving(s: Tx) { s.state == TransmitAnnounce ==> s.lastState == Idle }

  lemma StepDown(s: Tx, e: TxEnv, now: nat)
    requires !DueAtOnce(s, now) && Moving(s)
    ensures var r := Iterate(s, e, now); Ends(r) || (Rank(r.0) < Rank(s) && !DueAtOnce(r.0, now) && Moving(r.0))
  {}

  /** The dispatch loop. */
  function Loop(s: Tx, e: TxEnv, now: nat): (Tx, bool)
    requires !DueAtOnce(s, now) && Moving(s)
    decreases Rank(s)
  {
    StepDown(s, e, now);
    var r := Iterate(s, e, now);
    if Ends(r) then r else Loop(r.0, e, now)
  }

  lemma {:induction false} PassesShift(s: Tx, e: TxEnv, now: nat, n: nat)
    ensures Passes(s, e, now, n + 1) == Passes(Iterate(s, e, now).0, e, now, n)
  {
    if n > 0 { PassesShift(s, e, now, n - 1); }
  }

  lemma {:induction false} LoopEnds(s: Tx, e: TxEnv, now: nat) returns (n: nat)
    requires !DueAtOnce(s, now) && Moving(s)
    ensures EndsAt(s, e, now, n) && Loop(s, e, now) == Iterate(Passes(s, e, now, n), e, now)
    decreases Rank(s)
  {
    StepDown(s, e, now);
    var r := Iterate(s, e, now);
    if Ends(r) {
      n := 0;
    } else {
      var m := LoopEnds(r.0, e, now);
      n := m + 1;
      forall k: nat | k <= m ensures Passes(s, e, now, k + 1) == Passes(r.0, e, now, k) { PassesShift(s, e, now, k); }
      forall k | 0 <= k < n ensures !Ends(Iterate(Passes(s, e, now, k), e, now)) {
        if k > 0 { assert Passes(s, e, now, k - 1 + 1) == Passes(r.0, e, now, k - 1); }
      }
    }
  }

  lemma WaitingEnds(s: Tx, e: TxEnv, now: nat)
    requires AtRest(s) && !EntersIdle(s, e, now)
    ensures EndsAt(s, e, now, if s.newInfo && e.master && e.settled then 1 else 0)
  {
    assert Passes(s, e, now, 0) == s;
    assert Passes(s, e, now, 1) == Iterate(Passes(s, e, now, 0), e, now).0;
  }

  /** The dispatch loop ends except when it enters the idle state with an announce due at once: it then
      goes from idle to periodic and back for ever. */
  lemma CallTerminatesIff(s: Tx, e: TxEnv, now: nat)
    requires AtRest(s)
    ensures Terminates(Enter(s, e), e, now) <==> !(EntersIdle(s, e, now) && DueAtOnce(s, now))
  {
    var t := Enter(s, e);
    if !EntersIdle(s, e, now) {
      WaitingEnds(s, e, now);
    } else if DueAtOnce(s, now) {
      forall n: nat ensures !EndsAt(t, e, now, n) { CyclesForever(t, e, now, n); }
    } else {
      var n := LoopEnds(t, e, now);
    }
  }

  /** With intervals of a slot or more it always ends. */
  lemma SlotIntervalsTerminate(s: Tx, e: TxEnv, now: nat)
    requires AtRest(s) && s.interval2 >= SLOT
    ensures Terminates(Enter(s, e), e, now)
  {
    assert now + s.interval2 < Aligned(now + s.interval2) + SLOT;
    CallTerminatesIff(s, e, now);
  }

  /** With shorter ones it does not end when called right after an announce at the start of a slot. */
  lemma ShortIntervalsStall(s: Tx, e: TxEnv, slot: nat)
    requires AtRest(s) && s.lastState == TransmitAnnounce && s.interval2 < SLOT
    ensures !Terminates(Enter(s, e), e, slot * SLOT)
  {
    assert (slot * SLOT + s.interval2) / SLOT == slot;
    CallTerminatesIff(s, e, slot * SLOT);
  }

  // ------------------------------------------------------------------ when it announces

  /** A call ends once. */
  lemma EndsOnce(s: Tx, e: TxEnv, now: nat, n: nat, m: nat)
    requires EndsAt(s, e, now, n) && EndsAt(s, e, now, m)
    ensures n == m
  {
    assert n < m ==> !Ends(Iterate(Passes(s, e, now, n), e, now));
    assert m < n ==> !Ends(Iterate(Passes(s, e, now, m), e, now));
  }

  /** The loop once it enters the idle state. */
  lemma EnteringIdle(s: Tx, e: TxEnv, now: nat)
    requires s.state == Idle && s.lastState != Idle && !DueAtOnce(s, now)
    ensures var t, (r, announces) := s.(sendTime := Aligned(now + s.interval2)), Loop(s, e, now);
            && (announces <==> s.newInfo && e.master && e.settled)
            && r == if announces then TransmitAnnounceProc(t, e).(state := Idle, lastState := TransmitAnnounce)
                    else t.(state := Idle, lastState := Idle)
  {
    StepDown(s, e, now);
    var t := Iterate(s, e, now).0;
    if t.state == TransmitAnnounce { StepDown(t, e, now); }
  }

  /** The loop from a state that leads to the idle state. */
  lemma LoopStep(s: Tx, e: TxEnv, now: nat)
    requires !DueAtOnce(s, now) && Moving(s) && !Ends(Iterate(s, e, now))
    ensures var t := Iterate(s, e, now).0; !DueAtOnce(t, now) && Moving(t) && Loop(s, e, now) == Loop(t, e, now)
  {
    StepDown(s, e, now);
  }

  /** What a call from rest does: `starts` when the machine never ran or its neighbour is not capable,
      `due` when the time of the next announce has come. */
  ghost predicate Announced(s: Tx, e: TxEnv, now: nat, r: Tx, announces: bool) {
    var starts, due := !e.capable || s.state == TxInit, s.lastState == Idle && now >= s.sendTime;
    var slowed := s.slowdown && !starts && s.transmissions < e.allowed;
    && (announces <==> e.master && e.settled && (s.newInfo || starts || due))
    && (r.newInfo <==> !announces && (s.newInfo || starts || (due && e.master)))
    && r.sendTime == (if e.capable && s.lastState == Idle && now < s.sendTime then s.sendTime
                      else (now + s.interval2) / 25_000_000 * 25_000_000)
    && r.interval2 == (if !announces then s.interval2 else if slowed then e.oldAnnounceInterval else e.announceInterval)
    && (r.slowdown <==> s.slowdown && !starts && (announces ==> slowed))
    && r.transmissions == (if announces then if slowed then s.transmissions + 1 else 0
                           else if starts then 0 else s.transmissions)
    && r.state == Idle && r.lastState == if announces then TransmitAnnounce else Idle
  }

  lemma EntryAnnounces(s: Tx, e: TxEnv, now: nat)
    requires AtRest(s) && EntersIdle(s, e, now) && !DueAtOnce(s, now)
    ensures Moving(Enter(s, e))
    ensures var (r, announces) := Loop(Enter(s, e), e, now); Announced(s, e, now, r, announces)
  {
    var t := Enter(s, e);
    if t.state == TxInit {
      LoopStep(t, e, now);
      t := Iterate(t, e, now).0;
    }
    if t.state == Idle && t.lastState == Idle {
      LoopStep(t, e, now);
      t := Iterate(t, e, now).0;
    }
    if t.state != Idle {
      LoopStep(t, e, now);
      t := Iterate(t, e, now).0;
    }
    EnteringIdle(t, e, now);
  }

  /** Every call that ends hands an announce back exactly when the port is a settled master and there is
      news, its time has come, or it starts; and this is the state it leaves. */
  lemma CallAnnounces(s: Tx, e: TxEnv, now: nat, n: nat)
    requires AtRest(s) && EndsAt(Enter(s, e), e, now, n)
    ensures var (r, announces) := Iterate(Passes(Enter(s, e), e, now, n), e, now); Announced(s, e, now, r, announces)
  {
    var t := Enter(s, e);
    if EntersIdle(s, e, now) {
      if DueAtOnce(s, now) {
        CyclesForever(t, e, now, n);
      } else {
        EntryAnnounces(s, e, now);
        var m := LoopEnds(t, e, now);
        EndsOnce(t, e, now, n, m);
      }
    } else {
      WaitingEnds(s, e, now);
      EndsOnce(t, e, now, n, if s.newInfo && e.master && e.settled then 1 else 0);
      assert Passes(t, e, now, 0) == t;
      assert Passes(t, e, now, 1) == Iterate(Passes(t, e, now, 0), e, now).0;
    }
  }

  // ------------------------------------------------------------------ runs

  /** A call: what the machine sees, whether there was news before it, when it is made, and what it leaves. */
  datatype Round = Round(e: TxEnv, news: bool, now: nat, s: Tx, announces: bool)

  ghost predicate Calls(s: Tx, c: Round) {
    var t := s.(newInfo := s.newInfo || c.news);
    AtRest(t) && exists n: nat :: EndsAt(Enter(t, c.e), c.e, c.now, n) &&
                                  (c.s, c.announces) == Iterate(Passes(Enter(t, c.e), c.e, c.now, n), c.e, c.now)
  }

  /** The state before call `k` of a run from `s`. */
  function Before(s: Tx, run: seq<Round>, k: nat): Tx
    requires k <= |run|
  {
    if k == 0 then s else run[k - 1].s
  }

  /** Calls in order of time, each from where the one before left off. */
  ghost predicate Ran(s: Tx, run: seq<Round>) {
    && (forall k :: 0 <= k < |run| ==> Calls(Before(s, run, k), run[k]))
    && (forall k :: 1 <= k < |run| ==> run[k - 1].now <= run[k].now)
  }

  /** The port stays a settled master with a capable neighbour, and nothing new happens. */
  predicate Steady(run: seq<Round>) {
    forall c :: c in run ==> c.e.capable && c.e.master && c.e.settled && !c.news
  }

  /** A machine that has just announced, with nothing new to say. */
  predicate JustAnnounced(s: Tx) { s.state == Idle && s.lastState == TransmitAnnounce && !s.newInfo }

  /** When the next announce falls due, if `first` is the next call. */
  function DueTime(s: Tx, first: nat): nat { (first + s.interval2) / 25_000_000 * 25_000_000 }

  lemma CallsAnnounce(s: Tx, c: Round)
    requires Calls(s, c)
    ensures Announced(s.(newInfo := s.newInfo || c.news), c.e, c.now, c.s, c.announces)
  {
    var t := s.(newInfo := s.newInfo || c.news);
    var n: nat :| EndsAt(Enter(t, c.e), c.e, c.now, n) &&
                  (c.s, c.announces) == Iterate(Passes(Enter(t, c.e), c.e, c.now, n), c.e, c.now);
    CallAnnounces(t, c.e, c.now, n);
  }

  /** A machine that waits for the time `due`. */
  predicate WaitsFor(s: Tx, due: nat) { s.state == s.lastState == Idle && !s.newInfo && s.sendTime == due }

  /** A call of a settled master with nothing new. */
  lemma SteadyCall(s: Tx, c: Round)
    requires Calls(s, c) && c.e.capable && c.e.master && c.e.settled && !c.news && s.state == Idle && !s.newInfo
    ensures JustAnnounced(s) ==> WaitsFor(c.s, DueTime(s, c.now)) && !c.announces && c.s.interval2 == s.interval2
    ensures s.lastState == Idle && c.now < s.sendTime ==>
              WaitsFor(c.s, s.sendTime) && !c.announces && c.s.interval2 == s.interval2
    ensures s.lastState == Idle && c.now >= s.sendTime ==> c.announces && JustAnnounced(c.s)
  {
    hide Calls;
    CallsAnnounce(s, c);
    assert s.(newInfo := s.newInfo || c.news) == s;
  }

  /** Until then no call announces. */
  lemma {:induction false} WaitsForDueTime(s: Tx, run: seq<Round>, k: nat)
    requires Ran(s, run) && Steady(run) && JustAnnounced(s) && k < |run|
    requires k > 0 ==> run[k].now < DueTime(s, run[0].now)
    ensures !run[k].announces && WaitsFor(run[k].s, DueTime(s, run[0].now)) && run[k].s.interval2 == s.interval2
  {
    hide Calls;
    hide DueTime;
    assert run[k] in run;
    if k > 0 { WaitsForDueTime(s, run, k - 1); }
    SteadyCall(Before(s, run, k), run[k]);
  }

  /** A settled master announces again at the first call from the time of the next call plus the interval,
      rounded down to a slot, on; and not before. */
  lemma {:induction false} NextAnnounce(s: Tx, run: seq<Round>, k: nat)
    requires Ran(s, run) && Steady(run) && JustAnnounced(s) && k < |run|
    requires forall j :: 0 <= j < k ==> !run[j].announces
    ensures run[k].announces <==> k > 0 && run[k].now >= DueTime(s, run[0].now)
    ensures run[k].announces ==> JustAnnounced(run[k].s)
  {
    hide Calls;
    hide DueTime;
    assert run[k] in run;
    if k == 0 || run[k].now < DueTime(s, run[0].now) {
      WaitsForDueTime(s, run, k);
    } else {
      if k > 1 { NextAnnounce(s, run, k - 1); }
      WaitsForDueTime(s, run, k - 1);
      SteadyCall(Before(s, run, k), run[k]);
    }
  }

  /** So two announces are more than the interval less a slot apart; and at most the interval and twice
      the longest time `gap` between calls. */
  lemma AnnouncesApart(s: Tx, run: seq<Round>, k: nat, since: nat, gap: nat)
    requires Ran(s, run) && Steady(run) && JustAnnounced(s) && k < |run|
    requires forall j :: 0 <= j < k ==> !run[j].announces
    requires since <= run[0].now <= since + gap && forall j :: 1 <= j <= k ==> run[j].now <= run[j - 1].now + gap
    ensures run[k].announces ==> since + s.interval2 - SLOT < run[k].now <= since + s.interval2 + 2 * gap
    ensures run[k].now >= since + s.interval2 + gap && k > 0 ==> run[k].announces
  {
    hide Calls;
    NextAnnounce(s, run, k);
    var first := run[0].now;
    assert first + s.interval2 - SLOT < DueTime(s, first) <= first + s.interval2;
    if run[k].announces && k > 1 { NextAnnounce(s, run, k - 1); }
  }

  // ------------------------------------------------------------------ what is announced

  /** What the machine of port `p` sees of its system. */
  predicate Sees(s: Sys, p: nat, e: TxEnv)
    requires IsPort(s, p)
  {
    (e.master <==> s.selectedState[p] == MasterPort) && (e.settled <==> s.selected[p] && !s.ports[p].updtInfo)
  }

  /** An announce is handed back only on entering the transmit state from the idle state in the same
      call, so only when the port may transmit. */
  lemma {:induction false} AnnouncesWhenAllowed(s: Tx, e: TxEnv, now: nat, n: nat)
    requires s.state != TransmitAnnounce
    requires EndsAt(s, e, now, n) && Iterate(Passes(s, e, now, n), e, now).1
    ensures e.master && e.settled
  {
    var t := Passes(s, e, now, n);
    assert n > 0;
    assert t == Iterate(Passes(s, e, now, n - 1), e, now).0;
  }

  lemma AnnouncesMayTransmit(sys: Sys, p: nat, s: Tx, e: TxEnv, now: nat, n: nat)
    requires IsPort(sys, p) && Sees(sys, p, e) && AtRest(s)
    requires EndsAt(Enter(s, e), e, now, n) && Iterate(Passes(Enter(s, e), e, now, n), e, now).1
    ensures MayTransmit(sys, p) && sys.selectedState[p] == MasterPort && sys.selected[p] && !sys.ports[p].updtInfo
  {
    AnnouncesWhenAllowed(Enter(s, e), e, now, n);
  }

  // ------------------------------------------------------------------ the machine

  class Transmitter {
    var tx: Tx

    constructor ()
      ensures tx == INITIAL
    {
      tx := Tx(false, false, 0, 0, 1_000_000_000, TxInit, TxInit);
    }

    method Pass(e: TxEnv, now: nat) returns (announces: bool)
      modifies this
      ensures (tx, announces) == Iterate(old(tx), e, now)
    {
      var change := tx.lastState != tx.state;
      tx := tx.(lastState := tx.state);
      announces := false;
      match tx.state
      case TxInit => tx := tx.(state := TransmitInit);
      case TransmitInit =>
        if change { tx := tx.(newInfo := true, slowdown := false, transmissions := 0); }
        tx := tx.(state := Idle);
      case Periodic =>
        if change { tx := tx.(newInfo := tx.newInfo || e.master); }
        tx := tx.(state := Idle);
      case Idle =>
        if change { tx := tx.(sendTime := (now + tx.interval2) / SLOT * SLOT); }
        tx := IdleCondition(tx, e, now);
      case TransmitAnnounce =>
        if change {
          tx := TransmitAnnounceProc(tx, e);
          announces := true;
        }
        tx := tx.(state := Idle);
    }

    /** port_announce_transmit_sm, called when it ends. */
    method Run(e: TxEnv, now: nat) returns (announces: bool)
      requires AtRest(tx) && !(EntersIdle(tx, e, now) && DueAtOnce(tx, now))
      modifies this
      ensures AtRest(tx)
      ensures exists n: nat :: EndsAt(Enter(old(tx), e), e, now, n) &&
                               (tx, announces) == Iterate(Passes(Enter(old(tx), e), e, now, n), e, now)
      ensures Announced(old(tx), e, now, tx, announces)
    {
      hide Iterate;
      hide Announced;
      ghost var s := Enter(tx, e);
      CallTerminatesIff(tx, e, now);
      ghost var n: nat :| EndsAt(s, e, now, n);
      if !e.capable { tx := tx.(state := TransmitInit); }
      ghost var k: nat := 0;
      while true
        invariant k <= n && tx == Passes(s, e, now, k)
        decreases n - k
      {
        announces := Pass(e, now);
        if announces { break; }
        if tx.lastState == tx.state { break; }
        k := k + 1;
      }
      RestAfter(s, e, now, n);
      CallAnnounces(old(tx), e, now, n);
    }
  }

  lemma RestAfter(s: Tx, e: TxEnv, now: nat, n: nat)
    requires EndsAt(s, e, now, n)
    ensures AtRest(Iterate(Passes(s, e, now, n), e, now).0)
  {}
}

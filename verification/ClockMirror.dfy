/** The software clocks of one domain and their mirror in shared memory (gptpclock.c), and the time
    that a client computes from the mirror (gptpmasterclock.c). Readings of the hardware clock are
    inputs; the product of a rate and a time is exact and rounded as the program rounds it. */
module ClockMirror {
  import opened BmcsState
  import opened RateRatio

  datatype Mode = Master | SlaveMain | SlaveSub

  /** One clock: its phase and rate relative to the hardware clock, and when its phase was set. */
  datatype OneClock = OneClock(mode: Mode, offset: int, lastSet: int, rate: real)

  /** What clients of the domain see. */
  datatype Shared = Shared(offset: int, lastSet: int, rate: real)

  /** Clock 0 is the master clock; `ts2diff` is the latency allowed for setting a clock. */
  datatype Domain = Domain(clocks: map<nat, OneClock>, thisClock: nat, shared: Shared, ts2diff: nat)

  /** A domain with its master clock and another clock on the same hardware. */
  predicate HasClocks(d: Domain) { 0 in d.clocks && d.thisClock in d.clocks && d.thisClock != 0 }

  // ------------------------------------------------------------------ reading

  /** What a rate has added at reading `h` since the clock was set. */
  function Drift(rate: real, h: int, lastSet: int): real { rate * (h - lastSet) as real }

  /** gptpclock_getts_od at hardware reading `h`: a clock without offset is the hardware clock. */
  function GetTs(c: OneClock, h: int): int {
    if c.offset == 0 then h
    else h + c.offset + if c.rate != 0.0 then Truncated(Drift(c.rate, h, c.lastSet)) else 0
  }

  /** gptpmasterclock_get_domain_ts64 */
  function ClientTs(s: Shared, h: int): int {
    if s.rate != 0.0 then Truncated((h + s.offset) as real + Drift(s.rate, h, s.lastSet)) else h + s.offset
  }

  /** The origin timestamp the daemon sends at that reading (setPSSyncCMSS): the time of thisClock
      with the master clock's offset applied. */
  function OriginTs(d: Domain, h: int): int
    requires HasClocks(d)
  {
    GetTs(d.clocks[d.thisClock], h) + d.clocks[0].offset
  }

  // ------------------------------------------------------------------ setting

  /** gptpclock_setoffset_od: the mirror takes over the offset of the master clock or of thisClock. */
  function SetOffsetOd(d: Domain, i: nat): Domain
    requires HasClocks(d) && i in d.clocks
  {
    var c, c0, ct := d.clocks[i], d.clocks[0], d.clocks[d.thisClock];
    match c.mode
    case Master => if i == 0 then d.(shared := d.shared.(offset := c0.offset + ct.offset)) else d
    case SlaveSub =>
      if i == d.thisClock then d.(shared := d.shared.(lastSet := c.lastSet, offset := c0.offset + c.offset)) else d
    case SlaveMain => d
  }

  /** gptpclock_setts_od at reading `h`, and what the hardware clock is set to, if anything. */
  function SetTsOd(d: Domain, i: nat, ts: int, h: int): (Domain, Option<int>)
    requires HasClocks(d) && i in d.clocks
  {
    var c := d.clocks[i];
    if c.mode == SlaveMain then (d.(clocks := d.clocks[i := c.(lastSet := h, offset := 0)]), Some(ts))
    else (SetOffsetOd(d.(clocks := d.clocks[i := c.(lastSet := h, offset := ts - h)]), i), None)
  }

  /** time_setoffset64: the hardware clock is read twice. */
  function TimeSetOffset(d: Domain, i: nat, delta: int, h1: int, h2: int): (Domain, Option<int>)
    requires HasClocks(d) && i in d.clocks
  {
    SetTsOd(d, i, GetTs(d.clocks[i], h1) + delta, h2)
  }

  /** gptpclock_setoffset64 */
  function SetOffset64(d: Domain, i: nat, ts: int, h1: int, h2: int): (Domain, Option<int>)
    requires HasClocks(d) && i in d.clocks
  {
    if d.clocks[i].mode == SlaveMain then TimeSetOffset(d, i, d.ts2diff / 2 + ts, h1, h2)
    else (SetOffsetOd(d.(clocks := d.clocks[i := d.clocks[i].(offset := ts)]), i), None)
  }

  function Ppb(ppb: int): real { ppb as real / 1000000000.0 }

  /** gptpclock_setadj; a master clock cannot be adjusted, a main slave is adjusted in hardware. */
  function SetAdj(d: Domain, i: nat, ppb: int, h1: int, h2: int): Domain
    requires HasClocks(d) && i in d.clocks
  {
    if d.clocks[i].mode == SlaveSub then
      var e := TimeSetOffset(d, i, d.ts2diff / 2, h1, h2).0;
      e.(clocks := e.clocks[i := e.clocks[i].(rate := Ppb(ppb))], shared := e.shared.(rate := Ppb(ppb)))
    else d
  }

  /** gptpclock_mode_slave_main, unless the same clock is main slave in another domain. */
  function ModeSlaveMain(d: Domain): Domain
    requires HasClocks(d)
  {
    d.(clocks := d.clocks[d.thisClock := d.clocks[d.thisClock].(mode := SlaveMain, rate := 0.0)],
       shared := d.shared.(rate := 0.0, offset := d.clocks[0].offset))
  }

  /** gptpclock_set_thisClock: `main` tells whether the clock can be main slave, `move` whether its
      offset and rate and the master clock's offset are moved to it. The readings are those of the
      two moves of an offset into the hardware clock; and what that is set to. */
  function SetThisClock(d: Domain, i: nat, main: bool, move: bool, h: seq<int>): (Domain, seq<int>)
    requires 0 in d.clocks && i in d.clocks && i != 0 && |h| == 4
  {
    var e := d.(thisClock := i, clocks := d.clocks[0 := d.clocks[0].(mode := Master)]);
    if main then
      var f := ModeSlaveMain(e);
      if !move then (f, [])
      else
        var (g, own) := if f.clocks[i].offset != 0 then SetOffset64(f, i, f.clocks[i].offset, h[0], h[1]) else (f, None);
        var (k, moved) := SetOffset64(g, i, g.clocks[0].offset, h[2], h[3]);
        (Combined(k.(clocks := k.clocks[0 := k.clocks[0].(offset := 0)])), Listed(own) + Listed(moved))
    else
      var c := e.clocks[i].(mode := SlaveSub);
      if !move then (e.(clocks := e.clocks[i := c]), [])
      else
        (Combined(e.(clocks := e.clocks[i := c.(offset := c.offset + e.clocks[0].offset)]
                                       [0 := e.clocks[0].(offset := 0)])), [])
  }

  function Listed(x: Option<int>): seq<int> { if x.Some? then [x.value] else [] }

  /** The mirror's offset computed afresh. */
  function Combined(d: Domain): Domain
    requires HasClocks(d)
  {
    d.(shared := d.shared.(offset := d.clocks[0].offset + d.clocks[d.thisClock].offset))
  }

  // ------------------------------------------------------------------ the clocks, updated in place

  /** The clocks of a domain. Settings of a clock that does not exist fail. */
  class ClockStore {
    var clocks: map<nat, OneClock>
    var thisClock: nat
    var shared: Shared
    const ts2diff: nat

    ghost predicate Valid()
      reads this
    {
      HasClocks(Snapshot())
    }

    ghost function Snapshot(): Domain
      reads this
    {
      Domain(clocks, thisClock, shared, ts2diff)
    }

    constructor (thisClock: nat, ts2diff: nat)
      requires thisClock != 0
      ensures Valid() && this.thisClock == thisClock && Mirrored(Snapshot())
    {
      var initial := OneClock(Master, 0, 0, 0.0);
      clocks := map[0 := initial, thisClock := initial.(mode := SlaveSub)];
      this.thisClock, this.ts2diff := thisClock, ts2diff;
      shared := Shared(0, 0, 0.0);
    }

    method Read(i: nat, h: int) returns (ts: Option<int>)
      requires Valid()
      ensures ts == if i in clocks then Some(GetTs(clocks[i], h)) else None
    {
      if i !in clocks { return None; }
      var c := clocks[i];
      if c.offset == 0 { return Some(h); }
      var dts := 0;
      if c.rate != 0.0 { dts := Truncated(Drift(c.rate, h, c.lastSet)); }
      ts := Some(h + c.offset + dts);
    }

    method UpdateMirror(i: nat)
      requires Valid() && i in clocks
      modifies this`shared
      ensures Snapshot() == SetOffsetOd(old(Snapshot()), i)
    {
      if clocks[i].mode == Master {
        if i == 0 { shared := shared.(offset := clocks[0].offset + clocks[thisClock].offset); }
      } else if clocks[i].mode == SlaveSub {
        if i == thisClock {
          shared := shared.(lastSet := clocks[i].lastSet);
          shared := shared.(offset := clocks[0].offset + clocks[i].offset);
        }
      }
    }

    /** gptpclock_setts_od; `hardware` is what the hardware clock is set to. */
    method SetTs(i: nat, ts: int, h: int) returns (hardware: Option<int>)
      requires Valid() && i in clocks
      modifies this`clocks, this`shared
      ensures Valid() && (Snapshot(), hardware) == SetTsOd(old(Snapshot()), i, ts, h)
    {
      clocks := clocks[i := clocks[i].(lastSet := h, offset := ts - h)];
      if clocks[i].mode == SlaveMain {
        clocks := clocks[i := clocks[i].(offset := 0)];
        hardware := Some(ts);
      } else {
        UpdateMirror(i);
        hardware := None;
      }
      assert clocks == SetTsOd(old(Snapshot()), i, ts, h).0.clocks;
    }

    /** gptpclock_setoffset64 */
    method SetOffset(i: nat, ts: int, h1: int, h2: int) returns (ok: bool, hardware: Option<int>)
      requires Valid()
      modifies this`clocks, this`shared
      ensures Valid() && ok == (i in old(clocks))
      ensures if ok then (Snapshot(), hardware) == SetOffset64(old(Snapshot()), i, ts, h1, h2)
              else Snapshot() == old(Snapshot())
    {
      ok, hardware := i in clocks, None;
      if !ok { return; }
      if clocks[i].mode != SlaveMain {
        clocks := clocks[i := clocks[i].(offset := ts)];
        UpdateMirror(i);
      } else {
        var now := GetTs(clocks[i], h1);
        hardware := SetTs(i, now + (ts2diff / 2 + ts), h2);
      }
    }

    /** gptpclock_setadj: false for a clock that does not exist and for a master. */
    method SetRate(i: nat, ppb: int, h1: int, h2: int) returns (ok: bool)
      requires Valid()
      modifies this`clocks, this`shared
      ensures Valid() && ok == (i in old(clocks) && old(clocks)[i].mode != Master)
      ensures Snapshot() == if ok then SetAdj(old(Snapshot()), i, ppb, h1, h2) else old(Snapshot())
    {
      ok := i in clocks && clocks[i].mode != Master;
      if !ok || clocks[i].mode == SlaveMain { return; }
      var now := GetTs(clocks[i], h1);
      var hardware := SetTs(i, now + ts2diff / 2, h2);
      clocks := clocks[i := clocks[i].(rate := Ppb(ppb))];
      shared := shared.(rate := Ppb(ppb));
    }

    /** gptpclock_set_thisClock: false for clock 0 and for a clock that does not exist. */
    method ChooseThisClock(i: nat, main: bool, move: bool, h: seq<int>) returns (ok: bool, hardware: seq<int>)
      requires Valid() && |h| == 4
      modifies this
      ensures Valid() && ok == (i != 0 && i in old(clocks))
      ensures (Snapshot(), hardware) ==
                if ok then SetThisClock(old(Snapshot()), i, main, move, h) else (old(Snapshot()), [])
    {
      ok, hardware := i != 0 && i in clocks, [];
      if !ok { return; }
      thisClock := i;
      clocks := clocks[0 := clocks[0].(mode := Master)];
      if main {
        clocks := clocks[i := clocks[i].(mode := SlaveMain, rate := 0.0)];
        shared := shared.(rate := 0.0, offset := clocks[0].offset);
        if !move { return; }
        if clocks[i].offset != 0 {
          var own, toOwn := SetOffset(i, clocks[i].offset, h[0], h[1]);
          hardware := Listed(toOwn);
        }
        var moved, toMoved := SetOffset(i, clocks[0].offset, h[2], h[3]);
        hardware := hardware + Listed(toMoved);
        assert hardware == SetThisClock(old(Snapshot()), i, main, move, h).1;
        clocks := clocks[0 := clocks[0].(offset := 0)];
      } else {
        clocks := clocks[i := clocks[i].(mode := SlaveSub)];
        if !move { return; }
        clocks := clocks[i := clocks[i].(offset := clocks[i].offset + clocks[0].offset)];
        clocks := clocks[0 := clocks[0].(offset := 0)];
      }
      shared := shared.(offset := clocks[0].offset + clocks[i].offset);
      assert Snapshot() == SetThisClock(old(Snapshot()), i, main, move, h).0;
    }
  }

  // ------------------------------------------------------------------ the mirror

  /** The mirror shows both offsets combined and, for a clock adjusted in software, its rate and,
      while there is one, the time it counts from. */
  predicate Mirrored(d: Domain) {
    && HasClocks(d)
    && d.clocks[0].mode == Master
    && var c := d.clocks[d.thisClock];
       && c.mode != Master
       && d.shared.offset == d.clocks[0].offset + c.offset
       && d.shared.rate == c.rate
       && (c.rate != 0.0 ==> d.shared.lastSet == c.lastSet)
       && (c.mode == SlaveMain ==> c.rate == 0.0 && c.offset == 0)
  }

  datatype Op =
    | SetTime(i: nat, ts: int, h: int)
    | SetOffset(i: nat, ts: int, h1: int, h2: int)
    | SetRate(i: nat, ppb: int, h1: int, h2: int)

  function Apply(d: Domain, op: Op): Domain
    requires HasClocks(d) && op.i in d.clocks
  {
    match op
    case SetTime(i, ts, h) => SetTsOd(d, i, ts, h).0
    case SetOffset(i, ts, h1, h2) => SetOffset64(d, i, ts, h1, h2).0
    case SetRate(i, ppb, h1, h2) => SetAdj(d, i, ppb, h1, h2)
  }

  /** Operations on the master clock and on thisClock. */
  predicate OnOwnClocks(d: Domain, ops: seq<Op>) {
    forall k :: 0 <= k < |ops| ==> ops[k].i == 0 || ops[k].i == d.thisClock
  }

  lemma ApplyKeeps(d: Domain, op: Op)
    requires Mirrored(d) && (op.i == 0 || op.i == d.thisClock)
    ensures Mirrored(Apply(d, op)) && Apply(d, op).thisClock == d.thisClock
    ensures Apply(d, op).ts2diff == d.ts2diff
  {}

  function ApplyAll(d: Domain, ops: seq<Op>): (r: Domain)
    requires Mirrored(d) && OnOwnClocks(d, ops)
    ensures Mirrored(r) && r.thisClock == d.thisClock
  {
    if ops == [] then d
    else
      var n := |ops| - 1;
      var e := ApplyAll(d, ops[..n]);
      ApplyKeeps(e, ops[n]);
      Apply(e, ops[n])
  }

  /** When choosing thisClock sets up the mirror. With the offsets moved and the clock adjusted in
      hardware it always does; otherwise what is not moved must already agree. */
  lemma SetThisClockMirrors(d: Domain, i: nat, main: bool, move: bool, h: seq<int>)
    requires 0 in d.clocks && i in d.clocks && i != 0 && |h| == 4
    ensures Mirrored(SetThisClock(d, i, main, move, h).0) <==>
              if main then move || d.clocks[i].offset == 0
              else
                && d.shared.rate == d.clocks[i].rate
                && (d.clocks[i].rate != 0.0 ==> d.shared.lastSet == d.clocks[i].lastSet)
                && (move || d.shared.offset == d.clocks[0].offset + d.clocks[i].offset)
  {}

  // ------------------------------------------------------------------ client and daemon

  /** A rate's contribution that rounds alike towards zero and down. */
  predicate RoundsAlike(y: real) { y >= 0.0 || y == y.Floor as real }

  lemma TruncatedSum(x: int, y: real)
    requires x as real + y >= 0.0
    ensures Truncated(x as real + y) == x + y.Floor
    ensures x + Truncated(y) == if RoundsAlike(y) then x + y.Floor else x + y.Floor + 1
  {
    if y < 0.0 {
      assert (-y).Floor == if y == y.Floor as real then -y.Floor else -y.Floor - 1;
    }
  }

  /** A client computes the origin timestamp of the same instant, exactly: when thisClock runs at the
      hardware rate; or when it has an offset and the rate's contribution is not negative or whole,
      and one nanosecond less otherwise; or, without an offset, when the contribution is below one
      nanosecond, since the daemon then leaves the rate out. */
  lemma ClientAgrees(d: Domain, h: int)
    requires Mirrored(d) && Positive(d, h)
    ensures var c, y := d.clocks[d.thisClock], Drift(d.shared.rate, h, d.shared.lastSet);
            ClientTs(d.shared, h) ==
              OriginTs(d, h) + if c.rate == 0.0 then 0
                               else if c.offset == 0 then y.Floor
                               else if RoundsAlike(y) then 0 else -1
  {
    hide Drift;
    TruncatedSum(h + d.shared.offset, Drift(d.shared.rate, h, d.shared.lastSet));
  }

  /** The client's time is not before the epoch. */
  predicate Positive(d: Domain, h: int) {
    (h + d.shared.offset) as real + Drift(d.shared.rate, h, d.shared.lastSet) >= 0.0
  }

  /** Over every sequence of settings of the two clocks the client keeps up with the daemon to a
      nanosecond while thisClock has an offset or no rate of its own. */
  lemma ClientKeepsUp(d: Domain, ops: seq<Op>, h: int)
    requires Mirrored(d) && OnOwnClocks(d, ops) && Positive(ApplyAll(d, ops), h)
    requires var c := ApplyAll(d, ops).clocks[d.thisClock]; c.offset != 0 || c.rate == 0.0
    ensures var r := ApplyAll(d, ops); OriginTs(r, h) - 1 <= ClientTs(r.shared, h) <= OriginTs(r, h)
  {
    hide Drift;
    ClientAgrees(ApplyAll(d, ops), h);
  }

  // ------------------------------------------------------------------ what the clocks show

  lemma TruncatedShift(x: real, n: int)
    requires x >= 0.0 && x + n as real >= 0.0
    ensures Truncated(x + n as real) == Truncated(x) + n
  {}

  /** A phase given to the master clock moves the origin timestamps and the clients' time by what it
      exceeds the old phase by, at every reading. */
  lemma MasterPhaseMoves(d: Domain, ts: int, h1: int, h2: int, h: int)
    requires Mirrored(d)
    ensures var (e, hardware) := SetOffset64(d, 0, ts, h1, h2);
            && HasClocks(e) && hardware.None?
            && OriginTs(e, h) == OriginTs(d, h) + (ts - d.clocks[0].offset)
            && (Positive(d, h) && Positive(e, h) ==>
                  ClientTs(e.shared, h) == ClientTs(d.shared, h) + (ts - d.clocks[0].offset))
  {
    hide Drift;
    var e := SetOffset64(d, 0, ts, h1, h2).0;
    if Positive(d, h) && Positive(e, h) {
      TruncatedShift((h + d.shared.offset) as real + Drift(d.shared.rate, h, d.shared.lastSet), ts - d.clocks[0].offset);
    }
  }

  /** A phase given to a clock adjusted in software, or to a master, is what it shows ahead of the hardware,
      apart from its rate's contribution; one adjusted in hardware is put ahead by it, and by half the
      latency of setting it, of what it shows. */
  lemma PhaseIsShown(d: Domain, i: nat, ts: int, h1: int, h2: int, h: int)
    requires HasClocks(d) && i in d.clocks
    ensures var (e, hardware), c := SetOffset64(d, i, ts, h1, h2), d.clocks[i];
            && i in e.clocks
            && if c.mode == SlaveMain then
                 hardware == Some(GetTs(c, h1) + d.ts2diff / 2 + ts) && GetTs(e.clocks[i], h) == h
               else
                 hardware.None? &&
                 GetTs(e.clocks[i], h) == h + ts + if ts == 0 || c.rate == 0.0 then 0 else Truncated(Drift(c.rate, h, c.lastSet))
  {}

  /** A clock set to a time shows that time at that reading; one adjusted in hardware is set to it. */
  lemma TimeIsShown(d: Domain, i: nat, ts: int, h: int)
    requires HasClocks(d) && i in d.clocks
    ensures var (e, hardware) := SetTsOd(d, i, ts, h);
            && i in e.clocks && e.clocks[i].lastSet == h
            && if d.clocks[i].mode == SlaveMain then hardware == Some(ts) && (forall k :: GetTs(e.clocks[i], k) == k)
               else hardware.None? && GetTs(e.clocks[i], h) == ts
  {
    ZeroDrift(d.clocks[i].rate, h);
  }

  /** Setting any other clock leaves the mirror, and both clocks that it shows, alone. */
  lemma OthersLeaveMirror(d: Domain, op: Op)
    requires HasClocks(d) && op.i in d.clocks && op.i != 0 && op.i != d.thisClock && !op.SetRate?
    ensures var e := Apply(d, op); e == d.(clocks := d.clocks[op.i := e.clocks[op.i]])
  {}

  /** What choosing thisClock leaves. Adjusted in software, the clock takes over the master clock's offset.
      Adjusted in hardware, the hardware is put ahead by the master clock's offset; but an own offset that
      the clock had is added twice, since what it shows has it already. */
  lemma ThisClockShows(d: Domain, i: nat, main: bool, move: bool, h: seq<int>)
    requires 0 in d.clocks && i in d.clocks && i != 0 && |h| == 4
    ensures var (e, put), a, b := SetThisClock(d, i, main, move, h), d.clocks[0], d.clocks[i];
            && e.thisClock == i && e.ts2diff == d.ts2diff && e.clocks.Keys == d.clocks.Keys
            && (forall k :: k in d.clocks && k != 0 && k != i ==> e.clocks[k] == d.clocks[k])
            && e.clocks[0] == a.(mode := Master, offset := if move then 0 else a.offset)
            && if main then
                 && e.clocks[i].mode == SlaveMain && e.clocks[i].rate == 0.0
                 && e.clocks[i].offset == (if move then 0 else b.offset)
                 && e.shared.rate == 0.0 && e.shared.offset == (if move then 0 else a.offset)
                 && put == if !move then []
                           else (if b.offset != 0 then [h[0] + 2 * b.offset + d.ts2diff / 2] else []) +
                                [h[2] + a.offset + d.ts2diff / 2]
               else
                 && e.clocks[i] == b.(mode := SlaveSub, offset := if move then b.offset + a.offset else b.offset)
                 && e.shared == (if move then d.shared.(offset := a.offset + b.offset) else d.shared)
                 && put == []
  {}

  /** Adjusted in software, moving the offset leaves origin timestamps as they were, unless it gives an
      offset to a clock that had none, or takes it away, and so switches the rate on or off. */
  lemma MoveKeepsOrigin(d: Domain, i: nat, h: seq<int>, at: int)
    requires 0 in d.clocks && i in d.clocks && i != 0 && |h| == 4
    ensures var e, c, sum := SetThisClock(d, i, false, true, h).0, d.clocks[i], d.clocks[i].offset + d.clocks[0].offset;
            HasClocks(e) &&
            (OriginTs(e, at) == GetTs(c, at) + d.clocks[0].offset <==>
               (c.offset != 0 <==> sum != 0) || c.rate == 0.0 || Truncated(Drift(c.rate, at, c.lastSet)) == 0)
  {}

  // ------------------------------------------------------------------ slewing

  /** Changing the rate puts the clock ahead by half the latency allowed for setting it, between its two
      readings; so without that allowance, and at one reading, it leaves the time of that instant as it was. */
  lemma SlewKeepsTime(d: Domain, ppb: int, h1: int, h2: int)
    requires Mirrored(d) && d.clocks[d.thisClock].mode == SlaveSub
    ensures var e, t := SetAdj(d, d.thisClock, ppb, h1, h2), d.thisClock;
            && e.thisClock == t && HasClocks(e) && e.clocks[0] == d.clocks[0]
            && GetTs(e.clocks[t], h2) == GetTs(d.clocks[t], h1) + d.ts2diff / 2
            && OriginTs(e, h2) == OriginTs(d, h1) + d.ts2diff / 2
  {
    assert Drift(Ppb(ppb), h2, h2) == 0.0;
  }

  /** A clock slewed by `ppb` gains that many nanoseconds in every second of hardware time. */
  lemma SlewRate(d: Domain, ppb: int, h: int, seconds: int)
    requires Mirrored(d) && d.clocks[d.thisClock].mode == SlaveSub && d.ts2diff / 2 == 0
    requires GetTs(d.clocks[d.thisClock], h) != h
    ensures var c := SetAdj(d, d.thisClock, ppb, h, h).clocks[d.thisClock];
            GetTs(c, h + 1_000_000_000 * seconds) ==
              GetTs(d.clocks[d.thisClock], h) + 1_000_000_000 * seconds + ppb * seconds
  {
    var later := h + 1_000_000_000 * seconds;
    SlewStep(d, ppb, h, later);
    assert Drift(Ppb(ppb), later, h) == (ppb * seconds) as real by {
      assert (later - h) as real == 1000000000.0 * seconds as real;
    }
  }

  /** A change of rate at a hardware reading. */
  datatype Change = Change(ppb: int, h: int)

  /** The domain after the first `n` changes. */
  function Slewed(d: Domain, changes: seq<Change>, n: nat): (r: Domain)
    requires Mirrored(d) && n <= |changes|
    ensures Mirrored(r) && r.thisClock == d.thisClock && r.ts2diff == d.ts2diff
    ensures r.clocks[r.thisClock].mode == d.clocks[d.thisClock].mode
  {
    if n == 0 then d
    else
      var e := Slewed(d, changes, n - 1);
      var op := SetRate(d.thisClock, changes[n - 1].ppb, changes[n - 1].h, changes[n - 1].h);
      ApplyKeeps(e, op);
      Apply(e, op)
  }

  /** Time elapsed on a slewed clock: hardware time, and what the rate adds. */
  function Elapsed(ppb: int, from: int, to: int): int { to - from + Truncated(Drift(Ppb(ppb), to, from)) }

  /** The time after `n` changes: that of the first one, and what has elapsed at each rate since. */
  function Integrated(start: int, changes: seq<Change>, n: nat): int
    requires 1 <= n <= |changes|
  {
    if n == 1 then start
    else Integrated(start, changes, n - 1) + Elapsed(changes[n - 2].ppb, changes[n - 2].h, changes[n - 1].h)
  }

  ghost predicate OffsetsNonZero(d: Domain, changes: seq<Change>)
    requires Mirrored(d)
  {
    forall n :: 1 <= n <= |changes| ==> Slewed(d, changes, n).clocks[d.thisClock].offset != 0
  }

  lemma ZeroDrift(rate: real, h: int)
    ensures Drift(rate, h, h) == 0.0
  {}

  /** One change: the clock counts on from the same time, at the new rate; but a clock that shows the
      very hardware time goes on with it, and the rate is lost. */
  lemma SlewStep(d: Domain, ppb: int, h: int, later: int)
    requires Mirrored(d) && d.clocks[d.thisClock].mode == SlaveSub && d.ts2diff / 2 == 0
    ensures var c, t := SetAdj(d, d.thisClock, ppb, h, h).clocks[d.thisClock], GetTs(d.clocks[d.thisClock], h);
            && GetTs(c, h) == t
            && (c.offset != 0 ==> GetTs(c, later) == t + Elapsed(ppb, h, later))
            && (c.offset == 0 ==> t == h && GetTs(c, later) == later)
  {
    hide Drift;
    ZeroDrift(Ppb(ppb), h);
    ZeroRate(later, h);
  }

  lemma ZeroRate(h: int, lastSet: int)
    ensures Drift(0.0, h, lastSet) == 0.0
  {}

  /** Over every sequence of changes of rate the clock is continuous and runs at each rate in turn:
      no change steps it. */
  lemma {:induction false} SlewIntegrates(d: Domain, changes: seq<Change>, n: nat)
    requires Mirrored(d) && d.clocks[d.thisClock].mode == SlaveSub && d.ts2diff / 2 == 0
    requires 1 <= n <= |changes| && OffsetsNonZero(d, changes)
    ensures GetTs(Slewed(d, changes, n).clocks[d.thisClock], changes[n - 1].h) ==
            Integrated(GetTs(d.clocks[d.thisClock], changes[0].h), changes, n)
  {
    hide Drift;
    var e, op := Slewed(d, changes, n - 1), changes[n - 1];
    SlewStep(e, op.ppb, op.h, op.h);
    if n > 1 {
      SlewIntegrates(d, changes, n - 1);
      SlewStep(Slewed(d, changes, n - 2), changes[n - 2].ppb, changes[n - 2].h, op.h);
    }
  }
}

/** When a port counts its neighbour as asCapable (md_pdelay_req_sm.c): the counters that the peer
    delay requester keeps, against what has happened on the link. */
module AsCapable {

  datatype Limits = Limits(
    minDelay: nat,                  // neighborPropDelayMinLimit
    maxDelay: nat,                  // neighborPropDelayThresh
    allowedLostResponses: nat, allowedFaults: nat, conformToAvnu: bool)

  /** What bears on asCapable. `measured` tells whether the exchange yields a rate ratio (or none is
      to be computed), `fromSelf` whether the response came from this very system. */
  datatype Act =
    | Started                       // INITIAL_SEND_PDELAY_REQ entered and sent
    | WentDown
    | ResetEntered
    | AnsweredTwice
    | AnswersForgotten
    | Exchange(delay: nat, measured: bool, fromSelf: bool)

  datatype Counters = Counters(asCapable: bool, lost: nat, multi: nat, faults: nat, ratioValid: bool)

  const INITIAL: Counters := Counters(false, 0, 0, 0, false)

  // ------------------------------------------------------------------ the counters

  /** reset_proc */
  function AfterReset(l: Limits, c: Counters): Counters {
    if c.lost >= l.allowedLostResponses && !c.asCapable then c
    else
      var d := if c.lost < l.allowedLostResponses then c.(lost := c.lost + 1)
               else c.(asCapable := false, ratioValid := false);
      if l.conformToAvnu && d.multi > 0 && d.multi >= l.allowedLostResponses
      then d.(asCapable := false, ratioValid := false)
      else d
  }

  /** Whether a rate ratio counts after an exchange; `known` tells whether one counted before. */
  predicate Valid(known: bool, a: Act)
    requires a.Exchange?
  {
    known || a.measured
  }

  predicate Good(l: Limits, known: bool, a: Act)
    requires a.Exchange?
  {
    l.minDelay <= a.delay <= l.maxDelay && !a.fromSelf && Valid(known, a)
  }

  /** A fault that is only counted: a delay below the minimum, or an answer from itself. */
  predicate Fault(l: Limits, known: bool, a: Act)
    requires a.Exchange?
  {
    a.fromSelf || (a.delay < l.minDelay && Valid(known, a))
  }

  function Incapable(c: Counters): Counters { c.(asCapable := false, faults := 0) }

  /** waiting_for_pdelay_interval_timer_proc, from the delay on. */
  function AfterExchange(l: Limits, c: Counters, a: Act): Counters
    requires a.Exchange?
  {
    var d := c.(lost := 0, multi := 0, ratioValid := Valid(c.ratioValid, a));
    if Good(l, c.ratioValid, a) then d.(faults := 0, asCapable := true)
    else if Fault(l, c.ratioValid, a) && d.faults <= l.allowedFaults then d.(faults := d.faults + 1)
    else Incapable(d)
  }

  function Apply(l: Limits, c: Counters, a: Act): Counters {
    match a
    case Started => c.(lost := 0, multi := 0, faults := 0, asCapable := false)
    case WentDown => c.(asCapable := false)
    case ResetEntered => AfterReset(l, c)
    case AnsweredTwice => c.(multi := c.multi + 1)
    case AnswersForgotten => c.(multi := 0)
    case Exchange(_, _, _) => AfterExchange(l, c, a)
  }

  /** The counters after the first `n` acts. */
  function After(l: Limits, h: seq<Act>, n: nat): Counters
    requires n <= |h|
  {
    if n == 0 then INITIAL else Apply(l, After(l, h, n - 1), h[n - 1])
  }

  // ------------------------------------------------------------------ one act

  /** The verdict on an exchange. A delay above the threshold ends capability whatever was before; one below
      the minimum, or an answer from itself, is tolerated allowedFaults + 1 times running. */
  lemma ExchangeIsJudged(l: Limits, c: Counters, a: Act)
    requires a.Exchange?
    ensures var d, known := Apply(l, c, a), c.ratioValid || a.measured;
            && d.lost == 0 && d.multi == 0 && (d.ratioValid <==> known)
            && (!a.fromSelf && known && l.minDelay <= a.delay <= l.maxDelay ==> d.asCapable && d.faults == 0)
            && (!a.fromSelf && ((a.delay > l.maxDelay && a.delay >= l.minDelay) || !known) ==> !d.asCapable && d.faults == 0)
            && (a.fromSelf || (known && a.delay < l.minDelay) ==>
                  if c.faults <= l.allowedFaults then d.asCapable == c.asCapable && d.faults == c.faults + 1
                  else !d.asCapable && d.faults == 0)
  {}

  /** A reset counts one lost response, and ends capability when there is none left to lose, or for double
      answers; and a port that is neither capable nor has one to lose stays as it is. */
  lemma ResetIsCounted(l: Limits, c: Counters)
    ensures var d, spent := Apply(l, c, ResetEntered), c.lost >= l.allowedLostResponses;
            var ceases := l.conformToAvnu && c.multi > 0 && c.multi >= l.allowedLostResponses;
            && d.lost == (if spent then c.lost else c.lost + 1) && d.multi == c.multi && d.faults == c.faults
            && (d.asCapable <==> c.asCapable && !spent && !ceases)
            && (d.ratioValid <==> c.ratioValid && if spent then !c.asCapable else !ceases)
  {}

  // ------------------------------------------------------------------ the history

  /** Resets since the last exchange, good or not, or start. */
  function Resets(h: seq<Act>, n: nat): nat
    requires n <= |h|
  {
    if n == 0 || h[n - 1].Exchange? || h[n - 1].Started? then 0
    else Resets(h, n - 1) + if h[n - 1].ResetEntered? then 1 else 0
  }

  /** Double answers since the last exchange or start, or since they were last forgotten. */
  function DoubleAnswers(h: seq<Act>, n: nat): nat
    requires n <= |h|
  {
    if n == 0 || h[n - 1].Exchange? || h[n - 1].AnswersForgotten? || h[n - 1].Started? then 0
    else DoubleAnswers(h, n - 1) + if h[n - 1].AnsweredTwice? then 1 else 0
  }

  /** The last exchange that measured the rate ratio, among the first `n` acts, or -1. */
  function LastMeasured(h: seq<Act>, n: nat): (k: int)
    requires n <= |h|
    ensures -1 <= k < n
    ensures k >= 0 ==> h[k].Exchange? && h[k].measured
    ensures forall j :: k < j < n && h[j].Exchange? ==> !h[j].measured
  {
    if n == 0 then -1 else if h[n - 1].Exchange? && h[n - 1].measured then n - 1 else LastMeasured(h, n - 1)
  }

  /** A reset with no response left to lose, or one at which the port ceases for double answers. */
  predicate Exhausted(l: Limits, h: seq<Act>, j: nat)
    requires j < |h|
  {
    h[j].ResetEntered? && Resets(h, j) >= l.allowedLostResponses
  }

  predicate Ceases(l: Limits, h: seq<Act>, j: nat)
    requires j < |h|
  {
    h[j].ResetEntered? && l.conformToAvnu && DoubleAnswers(h, j) > 0 && DoubleAnswers(h, j) >= l.allowedLostResponses
  }

  /** A reset that ends capability, or ceases. A port that is not capable does not cease once it has
      no response left to lose. */
  ghost predicate EndsRatio(l: Limits, h: seq<Act>, j: nat)
    requires j < |h|
    decreases j, 2
  {
    if Exhausted(l, h, j) then Earned(l, h, j) else Ceases(l, h, j)
  }

  /** A rate ratio counts after the first `n` acts: it was measured, and no reset ended that since.
      Neither a link that goes down nor a start does. */
  ghost predicate RatioKnown(l: Limits, h: seq<Act>, n: nat)
    requires n <= |h|
    decreases n, 0
  {
    LastMeasured(h, n) >= 0 && forall j :: LastMeasured(h, n) < j < n ==> !EndsRatio(l, h, j)
  }

  ghost predicate GoodAt(l: Limits, h: seq<Act>, j: nat)
    requires j < |h|
    decreases j, 1
  {
    h[j].Exchange? && Good(l, RatioKnown(l, h, j), h[j])
  }

  ghost predicate FaultAt(l: Limits, h: seq<Act>, j: nat)
    requires j < |h|
    decreases j, 1
  {
    h[j].Exchange? && Fault(l, RatioKnown(l, h, j), h[j])
  }

  /** The last good exchange among the first `n` acts, or -1. */
  ghost function LastGood(l: Limits, h: seq<Act>, n: nat): (k: int)
    requires n <= |h|
    ensures -1 <= k < n
    ensures k >= 0 ==> GoodAt(l, h, k)
    ensures forall j :: k < j < n ==> !GoodAt(l, h, j)
    decreases n, 0
  {
    if n == 0 then -1 else if GoodAt(l, h, n - 1) then n - 1 else LastGood(l, h, n - 1)
  }

  /** Faults since the last good exchange. */
  ghost function Faults(l: Limits, h: seq<Act>, n: nat): nat
    requires n <= |h|
    decreases n, 0
  {
    if n == 0 || GoodAt(l, h, n - 1) then 0
    else Faults(l, h, n - 1) + if FaultAt(l, h, n - 1) then 1 else 0
  }

  /** An act that a capable port survives. */
  ghost predicate Survived(l: Limits, h: seq<Act>, j: nat)
    requires j < |h|
    decreases j, 2
  {
    match h[j]
    case Started => false
    case WentDown => false
    case ResetEntered => !Exhausted(l, h, j) && !Ceases(l, h, j)
    case AnsweredTwice => true
    case AnswersForgotten => true
    case Exchange(_, _, _) =>
      GoodAt(l, h, j) || (FaultAt(l, h, j) && Faults(l, h, j) <= l.allowedFaults)
  }

  /** There was a good exchange, and everything since was survived. */
  ghost predicate Earned(l: Limits, h: seq<Act>, n: nat)
    requires n <= |h|
    decreases n, 1
  {
    LastGood(l, h, n) >= 0 && forall j :: LastGood(l, h, n) < j < n ==> Survived(l, h, j)
  }

  lemma {:induction false} DoubleAnswersCounted(l: Limits, h: seq<Act>, n: nat)
    requires n <= |h|
    ensures After(l, h, n).multi == DoubleAnswers(h, n)
  {
    if n > 0 { DoubleAnswersCounted(l, h, n - 1); }
  }

  /** Lost responses are counted up to allowedLostResponses. */
  lemma {:induction false} ResetsCounted(l: Limits, h: seq<Act>, n: nat)
    requires n <= |h|
    ensures After(l, h, n).lost == if Resets(h, n) <= l.allowedLostResponses then Resets(h, n) else l.allowedLostResponses
  {
    if n > 0 { ResetsCounted(l, h, n - 1); }
  }

  // ------------------------------------------------------------------ the counters tell the history

  lemma EarnedStep(l: Limits, h: seq<Act>, n: nat)
    requires n < |h|
    ensures Earned(l, h, n + 1) <==> GoodAt(l, h, n) || (Earned(l, h, n) && Survived(l, h, n))
  {}

  lemma RatioStep(l: Limits, h: seq<Act>, n: nat)
    requires n < |h|
    ensures RatioKnown(l, h, n + 1) <==>
              (h[n].Exchange? && h[n].measured) || (RatioKnown(l, h, n) && !EndsRatio(l, h, n))
  {}

  /** The counters after `n` acts, in terms of the acts alone. */
  ghost predicate Told(l: Limits, h: seq<Act>, n: nat)
    requires n <= |h|
  {
    var c := After(l, h, n);
    && (c.ratioValid <==> RatioKnown(l, h, n))
    && (c.asCapable <==> Earned(l, h, n))
    && (Earned(l, h, n) ==>
          && c.faults == Faults(l, h, n) <= l.allowedFaults + 1
          && c.lost == Resets(h, n) <= l.allowedLostResponses)
  }

  lemma ToldStep(l: Limits, h: seq<Act>, n: nat)
    requires n < |h| && Told(l, h, n)
    ensures Told(l, h, n + 1)
  {
    EarnedStep(l, h, n);
    RatioStep(l, h, n);
    DoubleAnswersCounted(l, h, n);
    ResetsCounted(l, h, n);
    hide Earned;
    hide RatioKnown;
    var c, d := After(l, h, n), After(l, h, n + 1);
    assert d == Apply(l, c, h[n]);
    assert (d.ratioValid <==> RatioKnown(l, h, n + 1)) && (d.asCapable <==> Earned(l, h, n + 1));
    assert Earned(l, h, n + 1) ==> d.faults == Faults(l, h, n + 1) && d.lost == Resets(h, n + 1);
  }

  /** asCapable holds exactly when it was earned: after a good exchange, with at most allowedFaults + 1
      faults and no other bad exchange since, never more than allowedLostResponses resets between two
      exchanges, no cease for double answers, no restart and no link down. A ratio is valid exactly
      when one was measured and no reset ended that since. */
  lemma {:induction false} CapableIffEarned(l: Limits, h: seq<Act>, n: nat)
    requires n <= |h|
    ensures Told(l, h, n)
    ensures After(l, h, n).asCapable <==> Earned(l, h, n)
    ensures After(l, h, n).ratioValid <==> RatioKnown(l, h, n)
    ensures Earned(l, h, n) ==>
              After(l, h, n).faults == Faults(l, h, n) <= l.allowedFaults + 1 &&
              After(l, h, n).lost == Resets(h, n) <= l.allowedLostResponses
  {
    if n > 0 {
      CapableIffEarned(l, h, n - 1);
      ToldStep(l, h, n - 1);
    }
  }

  /** For instance a ratio measured before the link went down still counts after a restart: an
      exchange that measures none makes the port capable, which by itself it would not. */
  lemma RatioSurvivesRestart(l: Limits, d: nat, e: nat)
    requires l.minDelay <= d <= l.maxDelay && l.minDelay <= e <= l.maxDelay
    ensures var h := [Exchange(d, true, false), WentDown, Started, Exchange(e, false, false)];
            Earned(l, h, 4) && !Earned(l, h[2..], 2)
  {
    var h := [Exchange(d, true, false), WentDown, Started, Exchange(e, false, false)];
    CapableIffEarned(l, h, 4);
    CapableIffEarned(l, h[2..], 2);
    assert h[2..] == [Started, Exchange(e, false, false)];
    assert After(l, h, 1) == Apply(l, INITIAL, h[0]) && After(l, h, 2) == Apply(l, After(l, h, 1), WentDown);
    assert After(l, h, 3) == Apply(l, After(l, h, 2), Started);
    assert After(l, h[2..], 1) == Apply(l, INITIAL, Started);
  }

  // ------------------------------------------------------------------ histories that grow

  /** The counters once `acts` follow. */
  function Applied(l: Limits, c: Counters, acts: seq<Act>): Counters {
    if acts == [] then c else Apply(l, Applied(l, c, acts[..|acts| - 1]), acts[|acts| - 1])
  }

  lemma {:induction false} AfterPrefix(l: Limits, h: seq<Act>, g: seq<Act>, n: nat)
    requires n <= |h|
    ensures After(l, h + g, n) == After(l, h, n)
  {
    if n > 0 { AfterPrefix(l, h, g, n - 1); }
  }

  lemma {:induction false} AfterMore(l: Limits, h: seq<Act>, g: seq<Act>)
    ensures After(l, h + g, |h| + |g|) == Applied(l, After(l, h, |h|), g)
  {
    hide Apply;
    if g == [] {
      assert h + g == h;
    } else {
      var m := g[..|g| - 1];
      AfterMore(l, h, m);
      assert h + g == (h + m) + [g[|g| - 1]];
      AfterPrefix(l, h + m, [g[|g| - 1]], |h + m|);
    }
  }

  lemma {:induction false} AppliedMore(l: Limits, c: Counters, f: seq<Act>, g: seq<Act>)
    ensures Applied(l, c, f + g) == Applied(l, Applied(l, c, f), g)
  {
    if g == [] {
      assert f + g == f;
    } else {
      AppliedMore(l, c, f, g[..|g| - 1]);
      assert (f + g)[..|f + g| - 1] == f + g[..|g| - 1];
    }
  }
}

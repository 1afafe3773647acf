/** The three-state circuit breaker that guards the embedding call
    (internal/embedproc/circuit.go), and what it guarantees over whole runs. */
module Circuit {

  datatype Phase = Closed | Open | HalfOpen

  /** The breaker's fields. Times are integers of one unit (the source uses nanoseconds). */
  datatype Snapshot = Snapshot(phase: Phase, fails: nat, lastFail: int, probeUsed: bool)

  datatype Config = Config(maxFails: nat, resetAfter: nat) {
    predicate Valid() { maxFails >= 1 && resetAfter >= 1 }
  }

  const FRESH := Snapshot(Closed, 0, 0, false)

  function AfterAllow(c: Config, b: Snapshot, now: int): (r: (Snapshot, bool)) {
    match b.phase
    case Closed => (b, true)
    case Open =>
      if now - b.lastFail >= c.resetAfter then (b.(phase := HalfOpen, probeUsed := true), true) else (b, false)
    case HalfOpen =>
      if b.probeUsed then (b, false) else (b.(probeUsed := true), true)
  }

  function AfterOk(b: Snapshot): Snapshot {
    b.(fails := 0, phase := Closed, probeUsed := false)
  }

  function AfterFail(c: Config, b: Snapshot, now: int): Snapshot {
    if b.phase == HalfOpen || b.fails + 1 >= c.maxFails
    then Snapshot(Open, 0, now, false)
    else b.(fails := b.fails + 1, lastFail := now)
  }

  /** The object itself; the clock is an argument. */
  class Breaker {
    var phase: Phase
    var fails: nat
    var lastFail: int
    var probeUsed: bool
    const config: Config

    function View(): Snapshot
      reads this
    {
      Snapshot(phase, fails, lastFail, probeUsed)
    }

    /** Five consecutive failures open it, for thirty seconds. */
    constructor ()
      ensures View() == FRESH && config == Config(5, 30)
    {
      phase, fails, lastFail, probeUsed := Closed, 0, 0, false;
      config := Config(5, 30);
    }

    method Allow(now: int) returns (admitted: bool)
      modifies this`phase, this`probeUsed
      ensures (View(), admitted) == AfterAllow(config, old(View()), now)
    {
      match phase {
        case Closed => return true;
        case Open =>
          if now - lastFail >= config.resetAfter {
            phase := HalfOpen;
            probeUsed := true;
            return true;
          }
          return false;
        case HalfOpen =>
          if probeUsed {
            return false;
          }
          probeUsed := true;
          return true;
      }
    }

    method Ok()
      modifies this
      ensures View() == AfterOk(old(View()))
    {
      fails := 0;
      phase := Closed;
      probeUsed := false;
    }

    method Fail(now: int)
      modifies this
      ensures View() == AfterFail(config, old(View()), now)
    {
      fails := fails + 1;
      lastFail := now;
      if phase == HalfOpen || fails >= config.maxFails {
        fails := 0;
        phase := Open;
        probeUsed := false;
      }
    }
  }

  // ----- Runs in which an admitted call is resolved before the next one asks -----

  /** One call: it asks at `start`; if admitted it resolves at `end`. */
  datatype Call = Call(start: int, end: int, succeeds: bool)

  function AfterCall(c: Config, b: Snapshot, call: Call): Snapshot {
    var (b1, admitted) := AfterAllow(c, b, call.start);
    if !admitted then b1
    else if call.succeeds then AfterOk(b1)
    else AfterFail(c, b1, call.end)
  }

  function AfterRun(c: Config, b: Snapshot, run: seq<Call>): Snapshot
    decreases run
  {
    if run == [] then b else AfterRun(c, AfterCall(c, b, run[0]), run[1..])
  }

  function Admitted(c: Config, b: Snapshot, run: seq<Call>): nat
    decreases run
  {
    if run == [] then 0
    else (if AfterAllow(c, b, run[0].start).1 then 1 else 0) + Admitted(c, AfterCall(c, b, run[0]), run[1..])
  }

  /** The clock does not run backwards, from time `since` on. */
  ghost predicate Chronological(since: int, run: seq<Call>)
    decreases run
  {
    run == [] || (since <= run[0].start <= run[0].end && Chronological(run[0].end, run[1..]))
  }

  /** What holds whenever no call is in flight: half-open is never a resting state. */
  ghost predicate AtRest(c: Config, b: Snapshot, now: int) {
    && !b.probeUsed
    && b.lastFail <= now
    && match b.phase
       case Closed => b.fails < c.maxFails
       case Open => b.fails == 0
       case HalfOpen => false
  }

  lemma {:induction false} RunsRest(c: Config, b: Snapshot, now: int, run: seq<Call>)
    requires c.Valid() && AtRest(c, b, now) && Chronological(now, run)
    ensures AtRest(c, AfterRun(c, b, run), if run == [] then now else run[|run| - 1].end)
    decreases run
  {
    if run != [] {
      RunsRest(c, AfterCall(c, b, run[0]), run[0].end, run[1..]);
    }
  }

  /** Nothing is admitted between opening and `lastFail + resetAfter`, in any run. */
  lemma {:induction false} QuietWhileOpen(c: Config, b: Snapshot, run: seq<Call>)
    requires c.Valid() && b.phase == Open
    requires forall i :: 0 <= i < |run| ==> run[i].start < b.lastFail + c.resetAfter
    ensures Admitted(c, b, run) == 0 && AfterRun(c, b, run) == b
    decreases run
  {
    if run != [] {
      assert AfterCall(c, b, run[0]) == b;
      QuietWhileOpen(c, b, run[1..]);
    }
  }

  /** The breaker is never stuck: after any run, a call that comes `resetAfter` past the
      last failure is admitted, and if it succeeds the breaker is closed with no failures. */
  lemma NeverStuck(c: Config, run: seq<Call>, probe: Call)
    requires c.Valid() && Chronological(0, run)
    requires probe.start >= AfterRun(c, FRESH, run).lastFail + c.resetAfter
    ensures AfterAllow(c, AfterRun(c, FRESH, run), probe.start).1
    ensures probe.succeeds ==>
              AfterCall(c, AfterRun(c, FRESH, run), probe).phase == Closed
              && AfterCall(c, AfterRun(c, FRESH, run), probe).fails == 0
  {
    RunsRest(c, FRESH, 0, run);
  }

  /** It opens after exactly `maxFails` consecutive failures, not one sooner. */
  lemma {:induction false} OpensAtThreshold(c: Config, b: Snapshot, run: seq<Call>)
    requires c.Valid() && b.phase == Closed && b.fails < c.maxFails
    requires forall i :: 0 <= i < |run| ==> !run[i].succeeds
    requires b.fails + |run| <= c.maxFails
    ensures Admitted(c, b, run) == |run|
    ensures b.fails + |run| < c.maxFails ==>
              AfterRun(c, b, run).phase == Closed && AfterRun(c, b, run).fails == b.fails + |run|
    ensures b.fails + |run| == c.maxFails ==>
              AfterRun(c, b, run) == Snapshot(Open, 0, run[|run| - 1].end, false)
    decreases run
  {
    if run != [] {
      var next := AfterCall(c, b, run[0]);
      if b.fails + 1 < c.maxFails {
        OpensAtThreshold(c, next, run[1..]);
      } else {
        assert run == [run[0]];
      }
    }
  }

  /** Calls already spent by a resting breaker all of whose calls failed. */
  ghost function Budget(c: Config, b: Snapshot): int
    requires c.Valid()
  {
    if b.phase == Closed then b.fails else c.maxFails + b.lastFail / c.resetAfter
  }

  lemma {:induction false} MulAtLeast(d: int, gap: nat)
    requires d >= 1 && gap >= 1
    ensures d * gap >= d
  {
    if gap > 1 {
      MulAtLeast(d, gap - 1);
      assert d * gap == d * (gap - 1) + d;
    }
  }

  /** Euclidean quotients keep the order of their dividends (stated without the division). */
  lemma QuotientOrder(d: int, q1: int, r1: int, q2: int, r2: int)
    requires 0 <= r1 < d && 0 <= r2 < d
    requires d * q1 + r1 <= d * q2 + r2
    ensures q1 <= q2
  {
    if q2 < q1 {
      MulAtLeast(d, q1 - q2);
      Distribute(d, q1, q2);
    }
  }

  lemma Distribute(d: int, a: int, b: int)
    ensures d * (a - b) == d * a - d * b
  {
  }

  lemma DivMonotone(d: int, a: int, b: int)
    requires d >= 1 && a <= b
    ensures a / d <= b / d
  {
    QuotientOrder(d, a / d, a % d, b / d, b % d);
  }

  lemma ProbeCostsOnePeriod(reset: int, last: int, end: int)
    requires reset >= 1 && last + reset <= end
    ensures last / reset + 1 <= end / reset
  {
    assert reset * (last / reset + 1) == reset * (last / reset) + reset;
    QuotientOrder(reset, last / reset + 1, last % reset, end / reset, end % reset);
  }

  lemma {:induction false} FailuresAreRationed(c: Config, b: Snapshot, now: int, run: seq<Call>, horizon: int)
    requires c.Valid() && AtRest(c, b, now) && 0 <= now && 0 <= b.lastFail
    requires Chronological(now, run)
    requires forall i :: 0 <= i < |run| ==> !run[i].succeeds && run[i].end <= horizon
    requires now <= horizon
    ensures Budget(c, b) + Admitted(c, b, run) <= c.maxFails + horizon / c.resetAfter
    decreases run
  {
    if run == [] {
      DivMonotone(c.resetAfter, b.lastFail, horizon);
      DivMonotone(c.resetAfter, 0, horizon);
    } else {
      var call := run[0];
      var next := AfterCall(c, b, call);
      if b.phase == Open && AfterAllow(c, b, call.start).1 {
        ProbeCostsOnePeriod(c.resetAfter, b.lastFail, call.end);
      }
      DivMonotone(c.resetAfter, 0, call.end);
      FailuresAreRationed(c, next, call.end, run[1..], horizon);
    }
  }

  /** While the backend is down, at most `maxFails + floor(T / resetAfter)` calls reach it by time T. */
  lemma AdmissionBound(c: Config, run: seq<Call>, horizon: nat)
    requires c.Valid() && Chronological(0, run)
    requires forall i :: 0 <= i < |run| ==> !run[i].succeeds && run[i].end <= horizon
    ensures Admitted(c, FRESH, run) <= c.maxFails + horizon / c.resetAfter
  {
    FailuresAreRationed(c, FRESH, 0, run, horizon);
  }

  // ----- Overlapping calls: one event per request or resolution -----

  /** A request or a resolution, with the call it belongs to. */
  datatype Event = Ask(call: int, at: int) | Succeeded(call: int, at: int) | Failed(call: int, at: int)

  function AfterEvent(c: Config, b: Snapshot, e: Event): Snapshot {
    match e
    case Ask(_, at) => AfterAllow(c, b, at).0
    case Succeeded(_, _) => AfterOk(b)
    case Failed(_, at) => AfterFail(c, b, at)
  }

  function AfterEvents(c: Config, b: Snapshot, es: seq<Event>): Snapshot
    decreases es
  {
    if es == [] then b else AfterEvent(c, AfterEvents(c, b, es[..|es| - 1]), es[|es| - 1])
  }

  predicate Admits(c: Config, b: Snapshot, e: Event) {
    e.Ask? && AfterAllow(c, b, e.at).1
  }

  /** The i-th event is a request that is admitted. */
  predicate AdmittedAt(c: Config, b: Snapshot, es: seq<Event>, i: nat) {
    i < |es| && Admits(c, AfterEvents(c, b, es[..i]), es[i])
  }

  ghost predicate Quiet(c: Config, b: Snapshot, es: seq<Event>) {
    forall i: nat :: i < |es| ==> !AdmittedAt(c, b, es, i)
  }

  // What some other calls resolved to while the probe is out.

  predicate AnySucceeded(es: seq<Event>)
    decreases es
  {
    es != [] && (es[|es| - 1].Succeeded? || AnySucceeded(es[..|es| - 1]))
  }

  /** Failures since the last success. */
  function FailedSince(es: seq<Event>): nat
    decreases es
  {
    if es == [] || es[|es| - 1].Succeeded? then 0
    else FailedSince(es[..|es| - 1]) + (if es[|es| - 1].Failed? then 1 else 0)
  }

  /** Whether some call failed at least `wait` before `now`, counting only the last failure. */
  predicate LastFailedBefore(es: seq<Event>, now: int, wait: int)
    decreases es
  {
    es != [] && (if es[|es| - 1].Failed? then now - es[|es| - 1].at >= wait
                      else LastFailedBefore(es[..|es| - 1], now, wait))
  }

  /** A further request gets in past a probe that is still out: calls admitted earlier have succeeded, with
      fewer failures since than the threshold, or the last of them failed at least the reset time ago. */
  predicate LetsAnotherIn(c: Config, es: seq<Event>, now: int) {
    (AnySucceeded(es) && FailedSince(es) < c.maxFails) || LastFailedBefore(es, now, c.resetAfter)
  }

  lemma QuietPrefix(c: Config, b: Snapshot, es: seq<Event>, n: nat)
    requires Quiet(c, b, es) && n <= |es|
    ensures Quiet(c, b, es[..n])
  {
    forall i: nat | i < n ensures !AdmittedAt(c, b, es[..n], i) {
      assert es[..n][..i] == es[..i];
      assert !AdmittedAt(c, b, es, i);
    }
  }

  /** What the other calls' resolutions leave of the breaker. */
  lemma {:induction false} WhileProbeIsOut(c: Config, b: Snapshot, es: seq<Event>)
    requires c.Valid() && b.phase == HalfOpen && b.probeUsed && Quiet(c, b, es)
    ensures var t := AfterEvents(c, b, es);
            && (t.phase == HalfOpen <==> forall i :: 0 <= i < |es| ==> es[i].Ask?)
            && (t.phase == HalfOpen ==> t == b && !AnySucceeded(es))
            && (t.phase == Closed <==> AnySucceeded(es) && FailedSince(es) < c.maxFails)
            && (t.phase == Closed ==> t.fails == FailedSince(es))
            && (t.phase == Open ==> forall now ::
                 now - t.lastFail >= c.resetAfter <==> LastFailedBefore(es, now, c.resetAfter))
    ensures (forall i :: 0 <= i < |es| ==> es[i].Ask?) ==> forall now :: !LastFailedBefore(es, now, c.resetAfter)
    decreases es
  {
    if es != [] {
      var n := |es| - 1;
      var init := es[..n];
      QuietPrefix(c, b, es, n);
      WhileProbeIsOut(c, b, init);
      assert !AdmittedAt(c, b, es, n);
      assert es == init + [es[n]];
      assert (forall i :: 0 <= i < |es| ==> es[i].Ask?) <==> (forall i :: 0 <= i < n ==> init[i].Ask?) && es[n].Ask?;
    }
  }

  /** With a probe out and nobody admitted since, the next request is admitted exactly then. */
  lemma SecondProbeIff(c: Config, b: Snapshot, es: seq<Event>, ask: Event)
    requires c.Valid() && b.phase == HalfOpen && b.probeUsed && Quiet(c, b, es) && ask.Ask?
    ensures Admits(c, AfterEvents(c, b, es), ask) <==> LetsAnotherIn(c, es, ask.at)
  {
    WhileProbeIsOut(c, b, es);
    if AnySucceeded(es) && FailedSince(es) >= c.maxFails {
      assert AfterEvents(c, b, es).phase == Open;
    }
  }

  /** Among any further events of other calls, some request is admitted while the probe is out iff one of
      them comes when the resolutions before it let it in. */
  lemma OverlapIff(c: Config, b: Snapshot, es: seq<Event>)
    requires c.Valid() && b.phase == HalfOpen && b.probeUsed
    ensures Quiet(c, b, es) <==>
              forall i :: 0 <= i < |es| && es[i].Ask? && Quiet(c, b, es[..i]) ==> !LetsAnotherIn(c, es[..i], es[i].at)
  {
    if Quiet(c, b, es) {
      forall i | 0 <= i < |es| && es[i].Ask? && Quiet(c, b, es[..i]) ensures !LetsAnotherIn(c, es[..i], es[i].at) {
        assert !AdmittedAt(c, b, es, i);
        SecondProbeIff(c, b, es[..i], es[i]);
      }
    } else {
      var i := FirstAdmitted(c, b, es);
      SecondProbeIff(c, b, es[..i], es[i]);
    }
  }

  lemma {:induction false} FirstAdmitted(c: Config, b: Snapshot, es: seq<Event>) returns (i: nat)
    requires !Quiet(c, b, es)
    ensures AdmittedAt(c, b, es, i) && Quiet(c, b, es[..i])
  {
    i := 0;
    while !AdmittedAt(c, b, es, i)
      invariant i <= |es| && forall j: nat :: j < i ==> !AdmittedAt(c, b, es, j)
      decreases |es| - i
    {
      i := i + 1;
    }
    forall j: nat | j < i ensures !AdmittedAt(c, b, es[..i], j) {
      assert es[..i][..j] == es[..j];
      assert !AdmittedAt(c, b, es, j);
    }
  }

  /** Six calls admitted while closed, five failures, a probe, and the sixth call failing late: the next
      request is a second probe, although the first, call 6, has not resolved. */
  lemma OverlapAdmitsTwoProbes()
    ensures var c := Config(5, 30);
            var before := [Ask(0, 0), Ask(1, 0), Ask(2, 0), Ask(3, 0), Ask(4, 0), Ask(5, 0),
                           Failed(0, 1), Failed(1, 1), Failed(2, 1), Failed(3, 1), Failed(4, 1)];
            var open := AfterEvents(c, FRESH, before);
            var out := AfterEvent(c, open, Ask(6, 31));
            var late := AfterEvent(c, out, Failed(5, 32));
            && open.phase == Open && Admits(c, open, Ask(6, 31)) && out.phase == HalfOpen && out.probeUsed
            && late.phase == Open && Admits(c, late, Ask(7, 62))
            && (forall e :: e in before + [Failed(5, 32)] ==> e.call != 6)
  {
    var c := Config(5, 30);
    var asks := [Ask(0, 0), Ask(1, 0), Ask(2, 0), Ask(3, 0), Ask(4, 0), Ask(5, 0)];
    var fails := [Failed(0, 1), Failed(1, 1), Failed(2, 1), Failed(3, 1), Failed(4, 1)];
    AsksWhileClosed(c, asks);
    EventsAppend(c, FRESH, asks, fails);
    FiveFailures(c, fails);
    assert asks + fails == [Ask(0, 0), Ask(1, 0), Ask(2, 0), Ask(3, 0), Ask(4, 0), Ask(5, 0),
                            Failed(0, 1), Failed(1, 1), Failed(2, 1), Failed(3, 1), Failed(4, 1)];
  }

  lemma {:induction false} AsksWhileClosed(c: Config, asks: seq<Event>)
    requires forall i :: 0 <= i < |asks| ==> asks[i].Ask?
    ensures AfterEvents(c, FRESH, asks) == FRESH
    decreases asks
  {
    if asks != [] {
      AsksWhileClosed(c, asks[..|asks| - 1]);
    }
  }

  lemma {:induction false} EventsAppend(c: Config, b: Snapshot, x: seq<Event>, y: seq<Event>)
    ensures AfterEvents(c, b, x + y) == AfterEvents(c, AfterEvents(c, b, x), y)
    decreases y
  {
    if y == [] {
      assert x + y == x;
    } else {
      assert (x + y)[..|x + y| - 1] == x + y[..|y| - 1];
      EventsAppend(c, b, x, y[..|y| - 1]);
    }
  }

  lemma {:induction false} FailsFromFresh(c: Config, es: seq<Event>)
    requires forall i :: 0 <= i < |es| ==> es[i].Failed? && es[i].at == 1
    requires 0 < |es| < c.maxFails
    ensures AfterEvents(c, FRESH, es) == Snapshot(Closed, |es|, 1, false)
    decreases es
  {
    var init := es[..|es| - 1];
    if init != [] {
      FailsFromFresh(c, init);
    }
  }

  lemma FiveFailures(c: Config, es: seq<Event>)
    requires c == Config(5, 30) && |es| == 5 && forall i :: 0 <= i < |es| ==> es[i].Failed? && es[i].at == 1
    ensures AfterEvents(c, FRESH, es) == Snapshot(Open, 0, 1, false)
  {
    FailsFromFresh(c, es[..4]);
  }

  /** Between a granted probe and the first resolution that follows, nobody else is admitted. */
  lemma {:induction false} ProbeIsAlone(c: Config, b: Snapshot, asks: seq<Event>)
    requires b.phase == HalfOpen && b.probeUsed
    requires forall i :: 0 <= i < |asks| ==> asks[i].Ask?
    ensures AfterEvents(c, b, asks) == b && Quiet(c, b, asks)
    decreases asks
  {
    if asks != [] {
      var init := asks[..|asks| - 1];
      ProbeIsAlone(c, b, init);
      forall i: nat | i < |asks| ensures !AdmittedAt(c, b, asks, i) {
        if i < |init| {
          assert asks[..i] == init[..i] && asks[i] == init[i];
          assert !AdmittedAt(c, b, init, i);
        } else {
          assert asks[..i] == init;
        }
      }
    }
  }
}

/** The benchmark timer and the clock conversion under it (src/bench.c). */
module BenchTimer {
  import opened Arithmetic

  /** A call from the benchmark body, with what the clock reads when it is made. */
  datatype Call = Pause(at: int) | Resume(at: int)

  datatype Timer = Timer(accumNs: int, startedNs: int, running: bool)

  function Stopped(): Timer { Timer(0, 0, false) }

  function Tick(t: Timer, c: Call): Timer {
    match c
    case Pause(at) => if t.running then t.(accumNs := t.accumNs + (at - t.startedNs), running := false) else t
    case Resume(at) => if t.running then t else t.(startedNs := at, running := true)
  }

  function TickAll(t: Timer, calls: seq<Call>): Timer {
    if calls == [] then t else Tick(TickAll(t, calls[..|calls| - 1]), calls[|calls| - 1])
  }

  predicate Monotone(calls: seq<Call>) {
    forall i, j :: 0 <= i < j < |calls| ==> calls[i].at <= calls[j].at
  }

  /** The time spent running, by the clock: what lies between a resume and the call after it. Where
      calls of one kind follow each other these stretches join up. */
  function RunningTime(calls: seq<Call>): int {
    if |calls| < 2 then 0
    else
      var k := |calls| - 1;
      RunningTime(calls[..k]) + if calls[k - 1].Resume? then calls[k].at - calls[k - 1].at else 0
  }

  /** Where a stopped timer stands after any calls at all: it runs if and only if the last call was
      a resume, and what it has accumulated, with what is running now, is the running time. A
      second resume or pause in a row makes no difference. */
  lemma {:induction false} TimerAccounts(calls: seq<Call>)
    requires calls != []
    ensures var t := TickAll(Stopped(), calls);
            var last := calls[|calls| - 1];
            && (t.running <==> last.Resume?)
            && t.accumNs + (if t.running then last.at - t.startedNs else 0) == RunningTime(calls)
  {
    var before := calls[..|calls| - 1];
    if before == [] {
      assert TickAll(Stopped(), before) == Stopped();
    } else {
      TimerAccounts(before);
    }
  }

  lemma {:induction false} RunningTimeBounds(calls: seq<Call>)
    requires calls != [] && Monotone(calls)
    ensures 0 <= RunningTime(calls) <= calls[|calls| - 1].at - calls[0].at
  {
    if |calls| >= 2 {
      RunningTimeBounds(calls[..|calls| - 1]);
    }
  }

  /** The timer is running during nanosecond t: it lies between a resume and the next call. */
  predicate RunsAt(calls: seq<Call>, t: int) {
    exists i :: 0 <= i < |calls| - 1 && calls[i].Resume? && calls[i].at <= t < calls[i + 1].at
  }

  function RunningNanoseconds(calls: seq<Call>): set<int> {
    if calls == [] then {}
    else set t | calls[0].at <= t < calls[|calls| - 1].at && RunsAt(calls, t)
  }

  function Interval(a: int, b: int): (r: set<int>)
    requires a <= b
    ensures |r| == b - a && forall t :: t in r <==> a <= t < b
    decreases b - a
  {
    if a == b then {} else Interval(a, b - 1) + {b - 1}
  }

  /** Every nanosecond of the run counts once if the timer runs during it, and not otherwise. */
  lemma {:induction false} RunningTimeCounts(calls: seq<Call>)
    requires Monotone(calls)
    ensures |RunningNanoseconds(calls)| == RunningTime(calls)
  {
    if |calls| >= 2 {
      var k := |calls| - 1;
      RunningTimeCounts(calls[..k]);
      RunningSplits(calls);
      hide RunningNanoseconds, Monotone;
    }
  }

  lemma RunningMember(calls: seq<Call>, t: int)
    requires Monotone(calls)
    ensures t in RunningNanoseconds(calls) <==> RunsAt(calls, t)
  {
    if RunsAt(calls, t) {
      var i :| 0 <= i < |calls| - 1 && calls[i].Resume? && calls[i].at <= t < calls[i + 1].at;
      assert calls[0].at <= calls[i].at && calls[i + 1].at <= calls[|calls| - 1].at;
    }
  }

  lemma SplitMember(calls: seq<Call>, t: int)
    requires |calls| >= 2 && Monotone(calls)
    ensures var k := |calls| - 1;
            var inLast := calls[k - 1].Resume? && calls[k - 1].at <= t < calls[k].at;
            && (t in RunningNanoseconds(calls) <==> t in RunningNanoseconds(calls[..k]) || inLast)
            && !(t in RunningNanoseconds(calls[..k]) && inLast)
  {
    RunningMember(calls, t);
    RunningMember(calls[..|calls| - 1], t);
    RunsAtLast(calls, t);
    hide RunsAt, RunningNanoseconds;
  }

  lemma RunningSplits(calls: seq<Call>)
    requires |calls| >= 2 && Monotone(calls)
    ensures var k := |calls| - 1;
            |RunningNanoseconds(calls)| ==
            |RunningNanoseconds(calls[..k])| + if calls[k - 1].Resume? then calls[k].at - calls[k - 1].at else 0
  {
    var k := |calls| - 1;
    var all, before := RunningNanoseconds(calls), RunningNanoseconds(calls[..k]);
    var last := if calls[k - 1].Resume? then Interval(calls[k - 1].at, calls[k].at) else {};
    forall t
      ensures t in all <==> t in before || t in last
      ensures t in before ==> t !in last
    {
      SplitMember(calls, t);
      hide RunsAt, RunningNanoseconds, Monotone;
    }
    hide RunningNanoseconds, Monotone;
    DisjointSize(all, before, last);
  }

  lemma DisjointSize<T(!new)>(all: set<T>, a: set<T>, b: set<T>)
    requires forall t :: t in all <==> t in a || t in b
    requires forall t :: t in a ==> t !in b
    ensures |all| == |a| + |b|
  {
    assert all == a + b;
    assert a !! b;
  }

  lemma RunsAtLast(calls: seq<Call>, t: int)
    requires |calls| >= 2 && Monotone(calls)
    ensures var k := |calls| - 1;
            var inLast := calls[k - 1].Resume? && calls[k - 1].at <= t < calls[k].at;
            && (RunsAt(calls, t) <==> RunsAt(calls[..k], t) || inLast)
            && !(RunsAt(calls[..k], t) && inLast)
  {
    var k := |calls| - 1;
    if RunsAt(calls[..k], t) {
      var i :| 0 <= i < k - 1 && calls[..k][i].Resume? && calls[..k][i].at <= t < calls[..k][i + 1].at;
      assert calls[i] == calls[..k][i] && calls[i + 1] == calls[..k][i + 1];
      assert calls[i + 1].at <= calls[k - 1].at;
    }
    if RunsAt(calls, t) {
      var i :| 0 <= i < k && calls[i].Resume? && calls[i].at <= t < calls[i + 1].at;
      if i < k - 1 {
        assert calls[i] == calls[..k][i] && calls[i + 1] == calls[..k][i + 1];
      }
    }
  }

  /** Leaving out a call that repeats the one before it does not change the running time. */
  lemma {:induction false} RedundantCall(calls: seq<Call>, i: nat)
    requires 0 < i < |calls| - 1
    requires calls[i].Resume? == calls[i - 1].Resume?
    ensures RunningTime(calls[..i] + calls[i + 1..]) == RunningTime(calls)
  {
    var k := |calls| - 1;
    var less := calls[..i] + calls[i + 1..];
    assert less[..k - 1] == calls[..k][..i] + calls[..k][i + 1..];
    if i == k - 1 {
      assert less[..k - 1] == calls[..k - 1] && calls[..k][..k - 1] == calls[..k - 1];
    } else {
      RedundantCall(calls[..k], i);
    }
  }

  /** The calls of one measured run: the harness resumes, the body does what it likes, the harness
      pauses. */
  function RunCalls(resumed: int, body: seq<Call>, paused: int): seq<Call> {
    [Resume(resumed)] + body + [Pause(paused)]
  }

  /** Nanosecond t of a run is timed: the last call that the body has made by then, if any, is a
      resume. */
  predicate TimedAt(body: seq<Call>, t: int) {
    forall i :: 0 <= i < |body| && body[i].at <= t && (i == |body| - 1 || t < body[i + 1].at) ==> body[i].Resume?
  }

  function TimedNanoseconds(resumed: int, body: seq<Call>, paused: int): set<int> {
    set t | resumed <= t < paused && TimedAt(body, t)
  }

  /** The body makes its calls in order, between the harness's own. */
  predicate InOrder(resumed: int, body: seq<Call>, paused: int) {
    && resumed <= paused
    && (forall i :: 0 <= i < |body| ==> resumed <= body[i].at <= paused)
    && (forall i, j :: 0 <= i < j < |body| ==> body[i].at <= body[j].at)
  }

  lemma {:induction false} BetweenCalls(calls: seq<Call>, t: int) returns (i: nat)
    requires |calls| >= 2 && calls[0].at <= t < calls[|calls| - 1].at
    ensures i < |calls| - 1 && calls[i].at <= t < calls[i + 1].at
  {
    i := |calls| - 2;
    if t < calls[i].at {
      i := BetweenCalls(calls[..i + 1], t);
    }
  }

  lemma InOrderIsMonotone(resumed: int, body: seq<Call>, paused: int)
    requires InOrder(resumed, body, paused)
    ensures Monotone(RunCalls(resumed, body, paused))
  {
  }

  /** Only one call is the last one made by t. */
  lemma LastIsOne(calls: seq<Call>, t: int, i: nat, j: nat)
    requires Monotone(calls) && i < |calls| - 1 && j < |calls| - 1
    requires calls[i].at <= t < calls[i + 1].at && calls[j].at <= t < calls[j + 1].at
    ensures i == j
  {
    NextIsEarlier(calls, i, j);
    NextIsEarlier(calls, j, i);
    hide Monotone;
  }

  lemma NextIsEarlier(calls: seq<Call>, i: nat, j: nat)
    requires Monotone(calls) && i < |calls| - 1 && j < |calls| - 1
    ensures i < j ==> calls[i + 1].at <= calls[j].at
  {
  }

  lemma CallsOfRun(resumed: int, body: seq<Call>, paused: int)
    ensures var calls := RunCalls(resumed, body, paused);
            && |calls| == |body| + 2 && calls[0] == Resume(resumed) && calls[|body| + 1] == Pause(paused)
            && forall j :: 0 <= j < |body| ==> calls[j + 1] == body[j]
  {
  }

  /** A call of the body that is the last one made by t is the call that t comes after. */
  lemma BodyCallIs(resumed: int, body: seq<Call>, paused: int, t: int, i: nat, j: nat)
    requires InOrder(resumed, body, paused) && t < paused && i <= |body|
    requires var calls := RunCalls(resumed, body, paused); calls[i].at <= t < calls[i + 1].at
    requires j < |body| && body[j].at <= t && (j == |body| - 1 || t < body[j + 1].at)
    ensures body[j] == RunCalls(resumed, body, paused)[i]
  {
    hide RunCalls, Monotone, InOrder;
    var calls := RunCalls(resumed, body, paused);
    InOrderIsMonotone(resumed, body, paused);
    CallsOfRun(resumed, body, paused);
    assert calls[j + 1] == body[j];
    assert j < |body| - 1 ==> calls[j + 2] == body[j + 1];
    LastIsOne(calls, t, i, j + 1);
  }

  lemma TimedWhenRunning(resumed: int, body: seq<Call>, paused: int, t: int)
    requires InOrder(resumed, body, paused) && RunsAt(RunCalls(resumed, body, paused), t)
    ensures resumed <= t < paused && TimedAt(body, t)
  {
    var calls := RunCalls(resumed, body, paused);
    var i :| 0 <= i < |calls| - 1 && calls[i].Resume? && calls[i].at <= t < calls[i + 1].at;
    RunWithin(resumed, body, paused, i);
    hide InOrder, RunsAt;
    forall j | 0 <= j < |body| && body[j].at <= t && (j == |body| - 1 || t < body[j + 1].at)
      ensures body[j].Resume?
    {
      hide RunCalls;
      BodyCallIs(resumed, body, paused, t, i, j);
    }
    hide RunCalls;
  }

  lemma RunWithin(resumed: int, body: seq<Call>, paused: int, i: nat)
    requires InOrder(resumed, body, paused) && i <= |body|
    ensures var calls := RunCalls(resumed, body, paused); resumed <= calls[i].at && calls[i + 1].at <= paused
  {
  }

  lemma RunningWhenTimed(resumed: int, body: seq<Call>, paused: int, t: int)
    requires InOrder(resumed, body, paused) && resumed <= t < paused && TimedAt(body, t)
    ensures RunsAt(RunCalls(resumed, body, paused), t)
  {
    hide RunCalls, InOrder;
    var calls := RunCalls(resumed, body, paused);
    CallsOfRun(resumed, body, paused);
    var i := BetweenCalls(calls, t);
    if i > 0 {
      assert calls[i] == body[i - 1];
      assert i < |body| ==> calls[i + 1] == body[i];
    }
    assert calls[i].Resume?;
  }

  lemma SameSize<T(!new)>(a: set<T>, b: set<T>)
    requires forall t :: t in a <==> t in b
    ensures |a| == |b|
  {
    assert a == b;
  }

  /** The running time of a measured run counts its timed nanoseconds. */
  lemma RunCounts(resumed: int, body: seq<Call>, paused: int)
    requires InOrder(resumed, body, paused)
    ensures RunningTime(RunCalls(resumed, body, paused)) == |TimedNanoseconds(resumed, body, paused)|
  {
    var calls := RunCalls(resumed, body, paused);
    InOrderIsMonotone(resumed, body, paused);
    RunningTimeCounts(calls);
    forall t ensures t in RunningNanoseconds(calls) <==> t in TimedNanoseconds(resumed, body, paused) {
      RunningMember(calls, t);
      hide RunsAt, TimedAt, RunningNanoseconds, RunCalls, Monotone, InOrder;
      if RunsAt(calls, t) { TimedWhenRunning(resumed, body, paused, t); }
      if resumed <= t < paused && TimedAt(body, t) { RunningWhenTimed(resumed, body, paused, t); }
    }
    hide RunningTime, RunningNanoseconds, TimedNanoseconds;
    SameSize(RunningNanoseconds(calls), TimedNanoseconds(resumed, body, paused));
  }

  /** With no calls in the body all of the run is timed. */
  lemma EmptyBodyTimed(resumed: int, paused: int)
    requires resumed <= paused
    ensures |TimedNanoseconds(resumed, [], paused)| == paused - resumed
  {
    RunCounts(resumed, [], paused);
    assert RunCalls(resumed, [], paused) == [Resume(resumed), Pause(paused)];
    assert [Resume(resumed), Pause(paused)][..1] == [Resume(resumed)];
  }

  /** With one pause, what lies before it. */
  lemma OnePauseTimed(resumed: int, at: int, paused: int)
    requires resumed <= at <= paused
    ensures |TimedNanoseconds(resumed, [Pause(at)], paused)| == at - resumed
  {
    RunCounts(resumed, [Pause(at)], paused);
    var calls := [Resume(resumed), Pause(at), Pause(paused)];
    assert RunCalls(resumed, [Pause(at)], paused) == calls;
    assert calls[..2] == [Resume(resumed), Pause(at)] && calls[..2][..1] == [Resume(resumed)];
    assert RunningTime(calls[..2][..1]) == 0;
    assert RunningTime(calls[..2]) == at - resumed;
  }

  class Bench {
    var n: int
    var ns: int
    var accumNs: int
    var startedNs: int
    var running: bool

    function View(): Timer
      reads this
    {
      Timer(accumNs, startedNs, running)
    }

    constructor (n: int)
      ensures View() == Stopped() && this.n == n && ns == 0
    {
      this.n := n;
      ns, accumNs, startedNs, running := 0, 0, 0, false;
    }

    method Pause(now: int)
      modifies this
      ensures View() == Tick(old(View()), Call.Pause(now)) && n == old(n) && ns == old(ns)
    {
      if !running {
        return;
      }
      accumNs := accumNs + (now - startedNs);
      running := false;
    }

    method Resume(now: int)
      modifies this
      ensures View() == Tick(old(View()), Call.Resume(now)) && n == old(n) && ns == old(ns)
    {
      if running {
        return;
      }
      startedNs := now;
      running := true;
    }
  }

  /** run_measured with a body that pauses and resumes as it likes, on a clock that never goes
      back: the timed part is the running time, within the wall time, and the timer is stopped. */
  method RunMeasured(n: int, start: int, resumed: int, body: seq<Call>, paused: int, end: int)
    returns (b: Bench, wall: int)
    requires InOrder(resumed, body, paused) && start <= resumed && paused <= end
    ensures fresh(b) && b.n == n && !b.running
    ensures b.ns == |TimedNanoseconds(resumed, body, paused)|
    ensures b.ns == b.accumNs == RunningTime(RunCalls(resumed, body, paused))
    ensures 0 <= b.ns <= wall == end - start
  {
    b := new Bench(n);
    ghost var calls := RunCalls(resumed, body, paused);
    assert calls[..1] == [Resume(resumed)] && calls[..1][..0] == [];
    b.Resume(resumed);
    for i := 0 to |body|
      invariant b.View() == TickAll(Stopped(), calls[..i + 1]) && b.n == n
      invariant fresh(b)
    {
      assert calls[..i + 2][..i + 1] == calls[..i + 1] && calls[i + 1] == body[i];
      match body[i] {
        case Pause(at) => b.Pause(at);
        case Resume(at) => b.Resume(at);
      }
    }
    assert calls[..|calls| - 1] == calls[..|body| + 1];
    b.Pause(paused);
    b.ns := b.accumNs;
    wall := end - start;
    TimerAccounts(calls);
    InOrderIsMonotone(resumed, body, paused);
    RunningTimeBounds(calls);
    RunCounts(resumed, body, paused);
  }

  /** bench_now_ns from a counter of `freq` ticks a second, in two parts. */
  function SplitNs(ticks: int, freq: int): int
    requires freq > 0
  {
    ticks / freq * 1_000_000_000 + (ticks % freq * 1_000_000_000) / freq
  }

  /** Splitting the division loses nothing: the result is the exact quotient, rounded down. */
  lemma SplitIsExact(ticks: int, freq: int)
    requires 0 <= ticks && 0 < freq
    ensures SplitNs(ticks, freq) == (ticks * 1_000_000_000) / freq
  {
    var whole, part := ticks / freq, ticks % freq;
    assert ticks == freq * whole + part;
    assert ticks * 1_000_000_000 == (whole * 1_000_000_000) * freq + part * 1_000_000_000 by {
      assert (whole * 1_000_000_000) * freq == (freq * whole) * 1_000_000_000;
    }
    var rest := part * 1_000_000_000;
    var total := whole * 1_000_000_000 + rest / freq;
    assert total * freq == (whole * 1_000_000_000) * freq + (rest / freq) * freq;
    DivisionIs(ticks * 1_000_000_000, freq, total, rest % freq);
  }

  /** So the clock it makes never goes back. */
  lemma SplitIsMonotone(earlier: int, later: int, freq: int)
    requires 0 <= earlier <= later && 0 < freq
    ensures SplitNs(earlier, freq) <= SplitNs(later, freq)
  {
    SplitIsExact(earlier, freq);
    SplitIsExact(later, freq);
    QuotientsOrdered(earlier * 1_000_000_000, later * 1_000_000_000, freq);
  }

  /** The largest tick count whose product with 10^9 is a 64-bit number. */
  const UNSPLIT_TICKS: int := 9_223_372_036

  /** What dividing without the split would have to fit: from a little over nine seconds of a
      nanosecond counter it does not. */
  predicate UnsplitFits(ticks: int) { Fits(ticks * 1_000_000_000) }

  /** Everything that the split computes, from the products to the sum. */
  predicate SplitFits(ticks: int, freq: int)
    requires freq > 0
  {
    && Fits(ticks / freq * 1_000_000_000) && Fits(ticks % freq * 1_000_000_000)
    && Fits(ticks % freq * 1_000_000_000 / freq) && Fits(SplitNs(ticks, freq))
  }

  /** With the split, a frequency of up to UNSPLIT_TICKS + 1 leaves nothing that can overflow but the
      time itself; without it, the tick count has to stay within UNSPLIT_TICKS. With a larger
      frequency the split overflows too, for some number of ticks and a time below a second. */
  lemma SplitFitsIff(freq: int)
    requires 0 < freq
    ensures (forall ticks | 0 <= ticks && Fits(ticks * 1_000_000_000 / freq) :: SplitFits(ticks, freq)) <==>
            freq <= UNSPLIT_TICKS + 1
    ensures forall ticks | 0 <= ticks :: UnsplitFits(ticks) <==> ticks <= UNSPLIT_TICKS
  {
    if freq <= UNSPLIT_TICKS + 1 {
      forall ticks | 0 <= ticks && Fits(ticks * 1_000_000_000 / freq) ensures SplitFits(ticks, freq) {
        SplitIsExact(ticks, freq);
        PartsBounded(ticks, freq);
      }
    } else {
      var ticks := freq - 1;
      DivisionIs(ticks, freq, 0, ticks);
      DivisionIs(ticks * 1_000_000_000, freq, 1_000_000_000 - 1, freq - 1_000_000_000);
      assert !SplitFits(ticks, freq);
    }
  }

  lemma PartsBounded(ticks: int, freq: int)
    requires 0 <= ticks && 0 < freq
    ensures 0 <= ticks / freq * 1_000_000_000 <= SplitNs(ticks, freq)
    ensures 0 <= ticks % freq * 1_000_000_000 / freq <= SplitNs(ticks, freq)
    ensures 0 <= ticks % freq * 1_000_000_000 <= (freq - 1) * 1_000_000_000
  {
    QuotientsOrdered(0, ticks, freq);
    QuotientsOrdered(0, ticks % freq * 1_000_000_000, freq);
    DivisionIs(0, freq, 0, 0);
  }
}

/** The search for an iteration count that makes a measurement mean something (src/bench.c). */
module PickN {
  import opened Arithmetic

  const N_MAX: int := 1_000_000_000
  const ROUNDS: nat := 30

  /** What one measured run reports: the timed nanoseconds and those of the wall clock. */
  datatype Reading = Reading(ns: int, wall: int)

  /** The machine: what a run of n iterations in a given round reports, which may be anything. */
  type Machine = (nat, int) -> Reading

  predicate Stops(n: int, target: int, r: Reading) {
    r.ns >= target || r.wall >= target || n >= N_MAX
  }

  /** A count has to grow. */
  function Grown(n: int, next: int): int { if next <= n then n + 1 else next }

  /** An estimate with a fifth added. */
  function Padded(estimate: int): int { estimate + estimate / 5 }

  /** A quotient with a fifth added, in 64-bit arithmetic. */
  function PaddedQuotient(product: int, took: int): int
    requires 0 < took
  {
    var next := Truncated(product, took);
    Wrap(next + Truncated(next, 5))
  }

  /** The count that would reach the target, from what a run of n took, with a fifth added: in 64-bit
      arithmetic, where what does not fit wraps around. */
  function Estimate(n: int, target: int, took: int): int
    requires 0 < took
  {
    PaddedQuotient(Wrap(n * target), took)
  }

  function ByTimed(n: int, target: int, ns: int): int {
    if ns <= 0 then n * 100 else Grown(n, Min(Estimate(n, target, ns), n * 100))
  }

  /** The count after `n`, when a run of `n` has not reached the target on either clock. */
  function NextN(n: int, target: int, r: Reading): int {
    var next := ByTimed(n, target, r.ns);
    if r.wall > 0 && r.wall > r.ns then Grown(n, Min(Estimate(n, target, r.wall), next)) else next
  }

  /** The counts that get measured, and the one that is settled on. */
  datatype Outcome = Outcome(counts: seq<int>, result: int)

  function Search(n: int, round: nat, target: int, m: Machine): Outcome
    decreases ROUNDS - round
  {
    if round >= ROUNDS then Outcome([], n)
    else if Stops(n, target, m(round, n)) then Outcome([n], n)
    else
      var next := NextN(n, target, m(round, n));
      if next > N_MAX then Outcome([n], N_MAX)
      else
        var rest := Search(next, round + 1, target, m);
        Outcome([n] + rest.counts, rest.result)
  }

  lemma NextBounds(n: int, target: int, r: Reading)
    requires 1 <= n
    ensures n < NextN(n, target, r) <= 100 * n
  {
  }

  /** The body of pick_n's loop, from where the search is seen to go on. */
  method Advance(n: int, target: int, r: Reading) returns (next: int)
    requires 1 <= n < N_MAX
    ensures next == NextN(n, target, r) && n < next <= 100 * n && Fits(next)
  {
    if r.ns <= 0 {
      next := n * 100;
    } else {
      next := Truncated(Wrap(n * target), r.ns);
      next := Wrap(next + Truncated(next, 5));
      if next > n * 100 { next := n * 100; }
      if next <= n { next := n + 1; }
    }
    if r.wall > 0 && r.wall > r.ns {
      var byWall := Truncated(Wrap(n * target), r.wall);
      byWall := Wrap(byWall + Truncated(byWall, 5));
      if byWall < next { next := byWall; }
      if next <= n { next := n + 1; }
    }
  }

  /** A search whose first counts are already measured. */
  function After(counts: seq<int>, rest: Outcome): Outcome {
    Outcome(counts + rest.counts, rest.result)
  }

  lemma SearchUnfolds(counts: seq<int>, n: int, round: nat, target: int, m: Machine)
    requires round < ROUNDS
    ensures var next := NextN(n, target, m(round, n));
            After(counts, Search(n, round, target, m)) ==
            if Stops(n, target, m(round, n)) then Outcome(counts + [n], n)
            else if next > N_MAX then Outcome(counts + [n], N_MAX)
            else After(counts + [n], Search(next, round + 1, target, m))
  {
    var rest := Search(NextN(n, target, m(round, n)), round + 1, target, m).counts;
    assert counts + ([n] + rest) == counts + [n] + rest;
  }

  /** A run of `n` in the given round has not reached the target on either clock. */
  predicate FallsShort(n: int, round: nat, target: int, m: Machine) {
    m(round, n).ns < target && m(round, n).wall < target && n < 1_000_000_000
  }

  /** What a whole search from `n` in the given round comes to, read off its readings. Every count
      but the last falls short and leads to the one after it. The last is the result unless it falls
      short too, and then the result is the next count, cut off at the cap: because it is above the
      cap, or because the 30 rounds are over. */
  predicate IsRun(n: int, round: nat, target: int, m: Machine, counts: seq<int>, result: int) {
    && 1 <= |counts| <= 30 - round && counts[0] == n
    && (forall i :: 0 <= i < |counts| - 1 ==>
          && FallsShort(counts[i], round + i, target, m)
          && counts[i + 1] == NextN(counts[i], target, m(round + i, counts[i])) <= 1_000_000_000)
    && var last, at := counts[|counts| - 1], round + |counts| - 1;
       var next := NextN(last, target, m(at, last));
       if FallsShort(last, at, target, m) then
         && (next > 1_000_000_000 || at == 29)
         && result == (if next > 1_000_000_000 then 1_000_000_000 else next)
       else result == last
  }

  lemma {:induction false} SearchIsRun(n: int, round: nat, target: int, m: Machine)
    requires round < ROUNDS
    ensures var o := Search(n, round, target, m); IsRun(n, round, target, m, o.counts, o.result)
    decreases ROUNDS - round
  {
    var next := NextN(n, target, m(round, n));
    hide NextN;
    if FallsShort(n, round, target, m) && next <= N_MAX {
      var o, rest := Search(n, round, target, m), Search(next, round + 1, target, m);
      assert o == Outcome([n] + rest.counts, rest.result);
      if round + 1 < ROUNDS {
        SearchIsRun(next, round + 1, target, m);
        RunExtends(n, round, target, m, rest.counts, rest.result);
      }
    }
  }

  /** A run that fell short, before a run from the next count. */
  lemma RunExtends(n: int, round: nat, target: int, m: Machine, counts: seq<int>, result: int)
    requires round + 1 < 30 && FallsShort(n, round, target, m)
    requires NextN(n, target, m(round, n)) <= 1_000_000_000
    requires IsRun(NextN(n, target, m(round, n)), round + 1, target, m, counts, result)
    ensures IsRun(n, round, target, m, [n] + counts, result)
  {
    hide NextN, FallsShort;
    var all := [n] + counts;
    forall i | 0 <= i < |all| - 1
      ensures FallsShort(all[i], round + i, target, m)
      ensures all[i + 1] == NextN(all[i], target, m(round + i, all[i])) <= 1_000_000_000
    {
      if i > 0 {
        assert all[i] == counts[i - 1] && all[i + 1] == counts[i];
        assert round + i == round + 1 + (i - 1);
      }
    }
    assert all[|all| - 1] == counts[|counts| - 1];
  }

  /** There is only one such run. */
  lemma {:induction false} RunIsSearch(n: int, round: nat, target: int, m: Machine, counts: seq<int>, result: int)
    requires round < ROUNDS && IsRun(n, round, target, m, counts, result)
    ensures Outcome(counts, result) == Search(n, round, target, m)
    decreases ROUNDS - round
  {
    hide NextN;
    if |counts| > 1 {
      var rest := counts[1..];
      var next := NextN(n, target, m(round, n));
      assert FallsShort(counts[0], round + 0, target, m) && counts[1] == next;
      forall i | 0 <= i < |rest| - 1
        ensures FallsShort(rest[i], round + 1 + i, target, m)
        ensures rest[i + 1] == NextN(rest[i], target, m(round + 1 + i, rest[i])) <= 1_000_000_000
      {
        assert rest[i] == counts[i + 1] && rest[i + 1] == counts[i + 2];
        assert round + 1 + i == round + (i + 1);
      }
      assert rest[|rest| - 1] == counts[|counts| - 1];
      RunIsSearch(next, round + 1, target, m, rest, result);
      assert counts == [n] + rest;
    } else {
      assert counts == [n];
    }
  }

  /** pick_n. */
  method Pick(target: int, m: Machine) returns (n: int, ghost counts: seq<int>)
    ensures IsRun(1, 0, target, m, counts, n)
    ensures Outcome(counts, n) == Search(1, 0, target, m)
    ensures 1 <= n <= N_MAX
  {
    hide NextN, Search, IsRun;
    SearchIsRun(1, 0, target, m);
    n, counts := 1, [];
    for round := 0 to ROUNDS
      invariant 1 <= n <= N_MAX
      invariant After(counts, Search(n, round, target, m)) == Search(1, 0, target, m)
    {
      SearchUnfolds(counts, n, round, target, m);
      var r := m(round, n);
      counts := counts + [n];
      if r.ns >= target || r.wall >= target || n >= N_MAX {
        return;
      }
      n := Advance(n, target, r);
      if n > N_MAX {
        n := N_MAX;
        return;
      }
    }
    RoundsOver(n, target, m);
    assert counts + [] == counts;
  }

  lemma RoundsOver(n: int, target: int, m: Machine)
    ensures Search(n, ROUNDS, target, m) == Outcome([], n)
  {
  }

  /** Whatever the machine reports: at most 30 runs, each of more iterations than the one before
      but of no more than 100 times as many. */
  lemma {:induction false} SearchGrows(n: int, round: nat, target: int, m: Machine)
    requires 1 <= n <= N_MAX && round <= ROUNDS
    ensures var counts := Search(n, round, target, m).counts;
            && |counts| <= ROUNDS - round
            && (counts != [] ==> counts[0] == n)
            && (forall i :: 0 <= i < |counts| ==> n <= counts[i] <= N_MAX)
            && (forall i :: 0 < i < |counts| ==> counts[i - 1] < counts[i] <= 100 * counts[i - 1])
    decreases ROUNDS - round
  {
    hide NextN;
    if round < ROUNDS && !Stops(n, target, m(round, n)) {
      var next := NextN(n, target, m(round, n));
      NextBounds(n, target, m(round, n));
      if next <= N_MAX {
        SearchGrows(next, round + 1, target, m);
        hide Stops;
      }
    }
  }

  /** And a result in range: the last count measured, which reached the target on one of the
      clocks or is the cap, or the cap itself, or where the rounds ran out. */
  lemma {:induction false} SearchEnds(n: int, round: nat, target: int, m: Machine)
    requires 1 <= n <= N_MAX && round <= ROUNDS
    ensures var o := Search(n, round, target, m);
            && n <= o.result <= N_MAX
            && (|o.counts| == ROUNDS - round || o.result == N_MAX ||
                (o.counts != [] && o.result == o.counts[|o.counts| - 1] &&
                 var r := m(round + |o.counts| - 1, o.result);
                 r.ns >= target || r.wall >= target || o.result >= 1_000_000_000))
    decreases ROUNDS - round
  {
    hide NextN;
    if round < ROUNDS && !Stops(n, target, m(round, n)) {
      var next := NextN(n, target, m(round, n));
      NextBounds(n, target, m(round, n));
      if next <= N_MAX {
        SearchEnds(next, round + 1, target, m);
        var all, rest := Search(n, round, target, m), Search(next, round + 1, target, m);
        assert all == Outcome([n] + rest.counts, rest.result);
        hide Stops, Search;
      }
    }
  }

  /** Every intermediate value of a round that goes on is a 64-bit one. */
  predicate RoundFits(n: int, target: int, r: Reading) {
    && Fits(n * 100) && Fits(n + 1)
    && (r.ns > 0 ==> Fits(n * target) && Fits(Padded(n * target / r.ns)))
    && (r.wall > 0 && r.wall > r.ns ==> Fits(n * target) && Fits(Padded(n * target / r.wall)))
  }

  /** The next count as exact arithmetic has it. */
  function ExactNext(n: int, target: int, r: Reading): int {
    var byTimed :=
      if r.ns <= 0 then n * 100 else Grown(n, Min(Padded(n * target / r.ns), n * 100));
    if r.wall > 0 && r.wall > r.ns then Grown(n, Min(Padded(n * target / r.wall), byTimed)) else byTimed
  }

  lemma QuotientExact(product: int, took: int)
    requires 0 <= product && 0 < took && Fits(Padded(product / took))
    ensures PaddedQuotient(product, took) == Padded(product / took)
  {
    DivisorsOrdered(product, 1, took);
  }

  lemma EstimateExact(n: int, target: int, took: int)
    requires 1 <= n && 0 < target && 0 < took && Fits(n * target) && Fits(Padded(n * target / took))
    ensures Estimate(n, target, took) == Padded(n * target / took)
  {
    hide PaddedQuotient, Padded;
    assert 0 < n * target;
    QuotientExact(n * target, took);
  }

  /** A round in which everything fits computes what exact arithmetic does. */
  lemma FitsIsExact(n: int, target: int, r: Reading)
    requires 1 <= n && !Stops(n, target, r) && RoundFits(n, target, r)
    ensures NextN(n, target, r) == ExactNext(n, target, r)
  {
    hide Estimate, Padded;
    if r.ns > 0 { EstimateExact(n, target, r.ns); }
    if r.wall > 0 && r.wall > r.ns { EstimateExact(n, target, r.wall); }
  }

  lemma TimesOrdered(a: int, b: int, c: int)
    requires 0 <= a && b <= c
    ensures a * b <= a * c
  {
  }

  lemma TimesSpread(t: int, e: int, p: int)
    ensures t * (6 * e) == 6 * (t * e) && t * (6 * e + 6) == 6 * (t * e) + 6 * t
    ensures t * (5 * p) == 5 * (t * p) && t * (5 * p + 10) == 5 * (t * (p + 2))
  {
  }

  lemma PaddedWithin(e: int)
    ensures 5 * Padded(e) <= 6 * e <= 5 * Padded(e) + 4
  {
  }

  lemma PaddedBounds(product: int, took: int)
    requires 0 <= product && 0 < took
    ensures 5 * (took * Padded(product / took)) <= 6 * product < 5 * (took * (Padded(product / took) + 2))
  {
    var e := product / took;
    var p := Padded(e);
    hide Padded;
    assert took * e <= product < took * e + took;
    PaddedWithin(e);
    TimesOrdered(took, 5 * p, 6 * e);
    TimesOrdered(took, 6 * e + 6, 5 * p + 10);
    TimesSpread(took, e, p);
  }

  lemma PaddedOrdered(a: int, b: int)
    requires a <= b
    ensures Padded(a) <= Padded(b)
  {
  }

  /** In exact arithmetic the slower of the two clocks decides. */
  lemma SlowerDecides(n: int, target: int, r: Reading)
    requires 1 <= n && 0 < target
    ensures var took := if r.wall > r.ns then r.wall else r.ns;
            took > 0 ==> ExactNext(n, target, r) == Grown(n, Min(Padded(n * target / took), n * 100))
  {
    if r.wall > r.ns > 0 {
      assert 0 < n * target;
      DivisorsOrdered(n * target, r.ns, r.wall);
      PaddedOrdered(n * target / r.wall, n * target / r.ns);
    }
    hide Padded;
  }

  /** A count between n + 1 and 100 n that is `aim` where that is possible. */
  lemma GrownAims(n: int, product: int, took: int)
    requires 1 <= n && 0 <= product && 0 < took
    ensures var next := Grown(n, Min(Padded(product / took), n * 100));
            && (next == n + 1 || 5 * (took * next) <= 6 * product)
            && (next == 100 * n || 6 * product < 5 * (took * (next + 2)))
  {
    PaddedBounds(product, took);
    var aim := Padded(product / took);
    var next := Grown(n, Min(aim, n * 100));
    hide Padded;
    if next < 100 * n { TimesOrdered(took, aim + 2, next + 2); }
    if next > n + 1 { TimesOrdered(took, next, aim); }
  }

  /** Where the search goes from a round in range, by the slower of the two clocks: it grows up to a
      hundredfold, passes the target by no more than a fifth unless it goes on by one only, and stays
      within two iterations of that fifth unless it has grown as far as it may. */
  lemma NextAims(n: int, target: int, r: Reading)
    requires 1 <= n && !Stops(n, target, r) && RoundFits(n, target, r)
    ensures var next, took := NextN(n, target, r), if r.wall > r.ns then r.wall else r.ns;
            && n < next <= 100 * n
            && (took <= 0 ==> next == 100 * n)
            && (took > 0 ==> next == n + 1 || 5 * (took * next) <= 6 * (n * target))
            && (took > 0 ==> next == 100 * n || 6 * (n * target) < 5 * (took * (next + 2)))
  {
    FitsIsExact(n, target, r);
    NextBounds(n, target, r);
    var took := if r.wall > r.ns then r.wall else r.ns;
    if took > 0 {
      hide NextN, ExactNext, Padded, RoundFits;
      SlowerDecides(n, target, r);
      assert 0 < n * target;
      GrownAims(n, n * target, took);
    }
  }

  predicate SearchFits(n: int, round: nat, target: int, m: Machine)
    decreases ROUNDS - round
  {
    round < ROUNDS && !Stops(n, target, m(round, n)) ==>
      && RoundFits(n, target, m(round, n))
      && (NextN(n, target, m(round, n)) <= N_MAX ==> SearchFits(NextN(n, target, m(round, n)), round + 1, target, m))
  }

  /** The largest target for which no measurement can make the arithmetic overflow: the one with
      6/5 of 999999999 times it still within 64 bits. */
  const SAFE_TARGET: int := 7_686_143_371

  lemma SafeRound(n: int, target: int, r: Reading)
    requires 1 <= n < N_MAX && !Stops(n, target, r) && target <= SAFE_TARGET
    ensures RoundFits(n, target, r)
  {
    if r.ns > 0 || r.wall > 0 {
      assert 0 <= n * target <= (N_MAX - 1) * SAFE_TARGET by {
        assert n * target <= n * SAFE_TARGET;
      }
      if r.ns > 0 { DivisorsOrdered(n * target, 1, r.ns); }
      if r.wall > 0 { DivisorsOrdered(n * target, 1, r.wall); }
    }
  }

  lemma {:induction false} SafeSearch(n: int, round: nat, target: int, m: Machine)
    requires 1 <= n <= N_MAX && target <= SAFE_TARGET
    ensures SearchFits(n, round, target, m)
    decreases ROUNDS - round
  {
    if round < ROUNDS && !Stops(n, target, m(round, n)) {
      SafeRound(n, target, m(round, n));
      NextBounds(n, target, m(round, n));
      if NextN(n, target, m(round, n)) <= N_MAX {
        SafeSearch(NextN(n, target, m(round, n)), round + 1, target, m);
      }
    }
  }

  /** A machine that is too fast to time up to 10^8 iterations, then steers the search to 999999999
      iterations, and there reports one nanosecond. */
  function Steering(target: int): Machine {
    (round: nat, n: int) =>
      if round < 4 then Reading(0, 0)
      else if round == 4 then var ns := 100_000_000 * target / 833_333_333; Reading(ns, ns)
      else Reading(1, 1)
  }

  lemma Steers(target: int)
    requires target > SAFE_TARGET
    ensures ExactNext(100_000_000, target, Steering(target)(4, 100_000_000)) == 999_999_999
    ensures !Stops(100_000_000, target, Steering(target)(4, 100_000_000))
  {
    var p := 100_000_000 * target;
    var ns := p / 833_333_333;
    assert p == 833_333_333 * ns + p % 833_333_333;
    assert ns > 833_333_333;
    DivisionIs(p, ns, 833_333_333, p % 833_333_333);
  }

  lemma TooLarge(target: int)
    requires target > SAFE_TARGET
    ensures !SearchFits(1, 0, target, Steering(target))
  {
    var m := Steering(target);
    Steers(target);
    if RoundFits(100_000_000, target, m(4, 100_000_000)) {
      FitsIsExact(100_000_000, target, m(4, 100_000_000));
      assert !RoundFits(999_999_999, target, m(5, 999_999_999));
      assert !SearchFits(999_999_999, 5, target, m);
    }
    assert !SearchFits(100_000_000, 4, target, m);
    assert !SearchFits(1_000_000, 3, target, m);
    assert !SearchFits(10_000, 2, target, m);
    assert !SearchFits(100, 1, target, m);
  }

  /** The search is free of overflow on every machine exactly for targets up to SAFE_TARGET, about
      7.7 seconds. */
  lemma NoOverflowIff(target: int)
    ensures (forall m: Machine :: SearchFits(1, 0, target, m)) <==> target <= SAFE_TARGET
  {
    if target <= SAFE_TARGET {
      forall m: Machine ensures SearchFits(1, 0, target, m) { SafeSearch(1, 0, target, m); }
    } else {
      TooLarge(target);
    }
  }

  /** What n iterations at a constant cost each take. */
  function Cost(each: int, n: int): int { each * n }

  /** A machine with a linear cost: c nanoseconds an iteration timed and w on the wall. */
  function Linear(c: int, w: int): Machine {
    (round: nat, n: int) => Reading(Cost(c, n), Cost(w, n))
  }

  lemma Distribute(n: int, b: int, q: int, rest: int)
    ensures n * (b * q + rest) == q * (n * b) + n * rest
  {
  }

  lemma DivCancel(n: int, a: int, b: int)
    requires 0 < n && 0 <= a && 0 < b
    ensures 0 < n * b && (n * a) / (n * b) == a / b
  {
    var q, rest := a / b, a % b;
    Distribute(n, b, q, rest);
    assert a == b * q + rest;
    assert 0 <= n * rest;
    assert 0 < n * (b - rest) == n * b - n * rest;
    DivisionIs(n * a, n * b, q, n * rest);
  }

  lemma MulMono(a: int, b: int, w: int)
    requires a <= b && 0 <= w
    ensures Cost(w, a) <= Cost(w, b)
  {
    assert 0 <= (b - a) * w;
  }

  lemma QuotientBounds(target: int, w: int)
    requires 0 <= target && 1 <= w
    ensures 0 <= target / w && Cost(w, target / w) <= target < Cost(w, target / w + 1)
  {
    var q := target / w;
    assert target == w * q + target % w;
    assert w * (q + 1) == w * q + w;
  }

  lemma AtMostQuotient(n: int, target: int, w: int)
    requires 0 <= target && 1 <= w && Cost(w, n) <= target
    ensures n <= target / w
  {
    var q := target / w;
    QuotientBounds(target, w);
    if n > q {
      MulMono(q + 1, n, w);
    }
  }

  lemma CostScales(w: int, n: int)
    ensures Cost(w, 5 * n) == 5 * Cost(w, n) && Cost(w, 6 * n) == 6 * Cost(w, n)
  {
  }

  lemma PaddedFits(target: int, w: int, r: int)
    requires 0 <= target && 1 <= w && r <= Padded(target / w)
    ensures 5 * Cost(w, r) <= 6 * target
  {
    hide Cost;
    var q := target / w;
    QuotientBounds(target, w);
    MulMono(5 * r, 6 * q, w);
    CostScales(w, r);
    CostScales(w, q);
  }

  lemma OneMore(n: int, w: int)
    ensures Cost(w, n + 1) == Cost(w, n) + w
  {
  }

  lemma ScaledQuotient(n: int, target: int, each: int)
    requires 1 <= n && 0 <= target && 1 <= each
    ensures 0 < Cost(each, n) && n * target / Cost(each, n) == target / each
  {
    DivCancel(n, target, each);
    assert n * each == Cost(each, n);
  }

  /** On such a machine the next count aims at the wall clock, and how little of the run is timed
      does not matter. */
  lemma ExactLinearNext(n: int, round: nat, target: int, c: int, w: int)
    requires 1 <= n && 0 <= c <= w && 1 <= w && Cost(w, n) < target
    ensures ExactNext(n, target, Linear(c, w)(round, n)) == Grown(n, Min(Padded(target / w), n * 100))
    ensures Cost(c, n) < target
  {
    ScaledQuotient(n, target, w);
    assert Cost(c, n) <= Cost(w, n) && (c < w ==> Cost(c, n) < Cost(w, n)) && (c == 0 ==> Cost(c, n) == 0) by {
      assert w * n == c * n + (w - c) * n;
      assert 0 <= (w - c) * n;
      assert c < w ==> 0 < (w - c) * n;
    }
    if c > 0 {
      ScaledQuotient(n, target, c);
      DivisorsOrdered(target, c, w);
    }
    hide Cost;
    var timed, wall := n * target / Cost(w, n), target / w;
    assert timed == wall;
  }

  /** The largest target for which the product of 100000000 and the target fits in 64 bits. */
  const LINEAR_TARGET: int := 92_233_720_368

  /** A linear machine has all its rounds in range while the counts that are too small are no larger
      than that. */
  lemma LinearRoundFits(n: int, round: nat, target: int, c: int, w: int)
    requires 1 <= n <= 100_000_000 && 0 <= c <= w && 1 <= w && 0 < target <= LINEAR_TARGET
    ensures RoundFits(n, target, Linear(c, w)(round, n))
  {
    assert 0 <= n * target <= 100_000_000 * LINEAR_TARGET by {
      assert n * target <= n * LINEAR_TARGET;
    }
    if c > 0 {
      ScaledQuotient(n, target, c);
      DivisorsOrdered(target, 1, c);
    }
    ScaledQuotient(n, target, w);
    DivisorsOrdered(target, 1, w);
    assert Cost(c, n) <= 0 || c > 0;
    hide Cost;
  }

  /** The next count in 64-bit arithmetic, if the round is in range. */
  lemma LinearNext(n: int, round: nat, target: int, c: int, w: int)
    requires 1 <= n < N_MAX && 0 <= c <= w && 1 <= w && Cost(w, n) < target
    ensures !Stops(n, target, Linear(c, w)(round, n))
    ensures RoundFits(n, target, Linear(c, w)(round, n)) ==>
              NextN(n, target, Linear(c, w)(round, n)) == Grown(n, Min(Padded(target / w), n * 100))
    ensures 1 <= n <= 100_000_000 && 0 < target <= LINEAR_TARGET ==> RoundFits(n, target, Linear(c, w)(round, n))
  {
    hide RoundFits, NextN, ExactNext, Cost;
    ExactLinearNext(n, round, target, c, w);
    if n <= 100_000_000 && 0 < target <= LINEAR_TARGET {
      LinearRoundFits(n, round, target, c, w);
    }
    if RoundFits(n, target, Linear(c, w)(round, n)) {
      FitsIsExact(n, target, Linear(c, w)(round, n));
    }
  }

  /** What a linear machine with `w` nanoseconds on the wall an iteration is settled on: the wall
      reaches the target or the count is the cap, and it overshoots by a fifth or one iteration. */
  predicate Lands(r: int, target: int, w: int) {
    (Cost(w, r) >= target || r == N_MAX) && (5 * Cost(w, r) <= 6 * target || Cost(w, r) <= target + w)
  }

  /** A search that stops at the next count, or at the cap on the way there. */
  lemma SearchOnce(n: int, round: nat, target: int, m: Machine, next: int)
    requires round + 2 <= ROUNDS && !Stops(n, target, m(round, n)) && next == NextN(n, target, m(round, n))
    requires RoundFits(n, target, m(round, n))
    requires next <= N_MAX ==> Stops(next, target, m(round + 1, next))
    ensures SearchFits(n, round, target, m)
    ensures Search(n, round, target, m) ==
            if next > N_MAX then Outcome([n], N_MAX) else Outcome([n, next], next)
  {
    hide NextN, Stops, RoundFits;
    if next <= N_MAX {
      assert Search(next, round + 1, target, m) == Outcome([next], next);
      assert SearchFits(next, round + 1, target, m);
    }
  }

  /** The last jump: it overshoots the target by at most a fifth. */
  lemma LinearJump(n: int, round: nat, target: int, c: int, w: int)
    requires 1 <= n <= 100_000_000 && 0 <= c <= w && 1 <= w && Cost(w, n) < target && round + 2 <= ROUNDS
    requires 0 < target <= LINEAR_TARGET && 5 <= target / w && Padded(target / w) <= n * 100
    ensures SearchFits(n, round, target, Linear(c, w))
    ensures var o := Search(n, round, target, Linear(c, w)); |o.counts| <= 2 && Lands(o.result, target, w)
  {
    hide Cost, NextN, Search, SearchFits, RoundFits;
    var q := target / w;
    QuotientBounds(target, w);
    AtMostQuotient(n, target, w);
    LinearNext(n, round, target, c, w);
    var next := Padded(q);
    assert n < q + 1 <= next;
    MulMono(q + 1, next, w);
    PaddedFits(target, w, Min(next, N_MAX));
    SearchOnce(n, round, target, Linear(c, w), next);
  }

  /** With the target only a few iterations away there is no padding, and at most one more
      iteration is needed after the jump. */
  lemma LinearStep(n: int, round: nat, target: int, c: int, w: int)
    requires 1 <= n && 0 <= c <= w && 1 <= w && Cost(w, n) < target && round + 2 <= ROUNDS
    requires 0 < target <= LINEAR_TARGET && target / w == n < 5
    ensures SearchFits(n, round, target, Linear(c, w))
    ensures Search(n, round, target, Linear(c, w)) == Outcome([n, n + 1], n + 1) && Lands(n + 1, target, w)
  {
    hide Cost, NextN, Search, SearchFits, RoundFits;
    QuotientBounds(target, w);
    LinearNext(n, round, target, c, w);
    OneMore(n, w);
    SearchOnce(n, round, target, Linear(c, w), n + 1);
  }

  lemma LinearNear(n: int, round: nat, target: int, c: int, w: int)
    requires 1 <= n && 0 <= c <= w && 1 <= w && Cost(w, n) < target && round + 3 <= ROUNDS
    requires 0 < target <= LINEAR_TARGET && target / w < 5
    ensures SearchFits(n, round, target, Linear(c, w))
    ensures var o := Search(n, round, target, Linear(c, w)); |o.counts| <= 3 && Lands(o.result, target, w)
  {
    hide Cost, NextN, RoundFits;
    var q := target / w;
    AtMostQuotient(n, target, w);
    if n == q {
      LinearStep(n, round, target, c, w);
    } else {
      LinearNext(n, round, target, c, w);
      if Cost(w, q) < target {
        LinearStep(q, round + 1, target, c, w);
      } else {
        PaddedFits(target, w, q);
      }
    }
  }

  function Power100(k: nat): int {
    if k == 0 then 1 else 100 * Power100(k - 1)
  }

  lemma Powers()
    ensures Power100(0) == 1 && Power100(1) == 100 && Power100(2) == 10_000
    ensures Power100(3) == 1_000_000 && Power100(4) == 100_000_000
  {
    assert Power100(2) == 100 * Power100(1);
    assert Power100(3) == 100 * Power100(2);
    assert Power100(4) == 100 * Power100(3);
  }

  /** The climb: rounds of a hundredfold growth, of which there can only be a few below the cap. */
  lemma {:induction false} LinearClimb(k: nat, target: int, c: int, w: int)
    requires k <= 4 && 0 <= c <= w && 1 <= w && Cost(w, Power100(k)) < target && 0 < target <= LINEAR_TARGET
    ensures SearchFits(Power100(k), k, target, Linear(c, w))
    ensures var o := Search(Power100(k), k, target, Linear(c, w)); |o.counts| <= 6 - k && Lands(o.result, target, w)
    decreases 4 - k
  {
    hide Cost, NextN, RoundFits;
    var n := Power100(k);
    Powers();
    var q := target / w;
    AtMostQuotient(n, target, w);
    if Padded(q) <= n * 100 {
      if q < 5 {
        LinearNear(n, k, target, c, w);
      } else {
        LinearJump(n, k, target, c, w);
      }
    } else {
      LinearNext(n, k, target, c, w);
      PaddedFits(target, w, Min(n * 100, N_MAX));
      if k < 4 && Cost(w, Power100(k + 1)) < target {
        LinearClimb(k + 1, target, c, w);
      }
    }
  }

  /** What the search is for: without an intermediate value out of range and in at most six runs it
      finds a count that keeps the wall clock busy for the target, or is the cap, and that overshoots
      by at most a fifth of the target or by one iteration, unless it is a single iteration. */
  predicate Succeeds(target: int, c: int, w: int) {
    var o := Search(1, 0, target, Linear(c, w));
    && SearchFits(1, 0, target, Linear(c, w))
    && 1 <= |o.counts| <= 6
    && (w * o.result >= target || o.result == N_MAX)
    && (o.result == 1 || 5 * (w * o.result) <= 6 * target || w * o.result <= target + w)
  }

  lemma LinearSearch(target: int, c: int, w: int)
    requires 0 <= c <= w && 1 <= w
    ensures target <= LINEAR_TARGET ==> Succeeds(target, c, w)
  {
    if Cost(w, 1) < target <= LINEAR_TARGET {
      Powers();
      LinearClimb(0, target, c, w);
    }
    hide NextN, RoundFits;
  }

  /** Above that, a cost of one nanosecond takes the search up to 100000000 iterations, where the
      product no longer fits. */
  lemma LinearOverflows(target: int)
    requires target > LINEAR_TARGET
    ensures !SearchFits(1, 0, target, Linear(1, 1))
  {
  }

  /** The search succeeds on every linear machine exactly for targets up to about 92 seconds. */
  lemma LinearSearchIff(target: int)
    ensures (forall c, w | 0 <= c <= w && 1 <= w :: Succeeds(target, c, w)) <==> target <= LINEAR_TARGET
  {
    if target <= LINEAR_TARGET {
      forall c, w | 0 <= c <= w && 1 <= w ensures Succeeds(target, c, w) { LinearSearch(target, c, w); }
    } else {
      LinearOverflows(target);
      assert !Succeeds(target, 1, 1);
    }
  }

  /** The largest target for which 64 bits hold the product with 100000025 as an unsigned number. */
  const CREEP_TARGET: int := 184_467_394_620

  lemma FastRound(n: int, round: nat, target: int)
    requires 1 <= n <= 1_000_000 && LINEAR_TARGET < target <= CREEP_TARGET
    ensures !Stops(n, target, Linear(1, 1)(round, n)) && NextN(n, target, Linear(1, 1)(round, n)) == 100 * n
  {
    assert 0 < n * target <= 1_000_000 * target;
    DivisionIs(n * target, n, target, 0);
  }

  lemma NegativeQuotient(product: int, took: int)
    requires Fits(product) && product < 0 && 2 <= took
    ensures PaddedQuotient(product, took) <= 0
  {
    DivisorsOrdered(-product, 2, took);
  }

  /** From there the wrapped product is negative, and so is the estimate. */
  lemma CreepRound(n: int, round: nat, target: int)
    requires 100_000_000 <= n <= 100_000_025 && LINEAR_TARGET < target <= CREEP_TARGET
    ensures !Stops(n, target, Linear(1, 1)(round, n)) && NextN(n, target, Linear(1, 1)(round, n)) == n + 1
  {
    hide PaddedQuotient;
    assert 100_000_000 * target <= n * target <= 100_000_025 * target;
    var p := Wrap(n * target);
    assert p == n * target - TWO64 < 0;
    NegativeQuotient(p, n);
  }

  lemma {:induction false} Creep(n: int, round: nat, target: int)
    requires 4 <= round <= ROUNDS && n == 100_000_000 + round - 4 && LINEAR_TARGET < target <= CREEP_TARGET
    ensures var o := Search(n, round, target, Linear(1, 1));
            |o.counts| == ROUNDS - round && o.result == 100_000_026
    decreases ROUNDS - round
  {
    if round < ROUNDS {
      CreepRound(n, round, target);
      Creep(n + 1, round + 1, target);
      hide NextN, Stops;
    }
  }

  /** What the search does between 92 and 184 seconds at one nanosecond an iteration: it uses up its
      30 rounds one iteration at a time and settles on a tenth of a second. */
  lemma LinearCreeps(target: int)
    requires LINEAR_TARGET < target <= CREEP_TARGET
    ensures var o := Search(1, 0, target, Linear(1, 1));
            |o.counts| == 30 && o.result == 100_000_026 && o.result != N_MAX && 1 * o.result < target
  {
    var m := Linear(1, 1);
    FastRound(1, 0, target);
    FastRound(100, 1, target);
    FastRound(10_000, 2, target);
    FastRound(1_000_000, 3, target);
    Creep(100_000_000, 4, target);
    hide NextN, Stops, Linear;
    assert Search(1_000_000, 3, target, m).result == 100_000_026 && |Search(1_000_000, 3, target, m).counts| == 27;
    assert Search(10_000, 2, target, m).result == 100_000_026 && |Search(10_000, 2, target, m).counts| == 28;
    assert Search(100, 1, target, m).result == 100_000_026 && |Search(100, 1, target, m).counts| == 29;
  }
}

/** Runs of a system whose actors take turns in an arbitrary order.

    A protocol gives a `step` function: the state after the actor named by a turn has had
    one turn. A turn that its actor cannot use, because it is blocked or only spins, leaves
    the state as it was. A turn may carry further choices besides the actor, such as which
    waiter a wakeup goes to. A schedule is any finite sequence of turns. */
module Interleaving {
  import opened Sequences

  function Run<S, C>(step: (S, C) -> S, s: S, schedule: seq<C>): S {
    if schedule == [] then s else Run(step, step(s, schedule[0]), schedule[1..])
  }

  /** How many turns of a schedule actually moved the system. */
  function Moves<S(==), C>(step: (S, C) -> S, s: S, schedule: seq<C>): nat {
    if schedule == [] then 0
    else (if step(s, schedule[0]) == s then 0 else 1) + Moves(step, step(s, schedule[0]), schedule[1..])
  }

  ghost predicate Inductive<S(!new), C(!new)>(step: (S, C) -> S, inv: S -> bool) {
    forall s, c :: inv(s) ==> inv(step(s, c))
  }

  /** Every turn that moves the system uses up some of its rank. */
  ghost predicate Ranked<S(!new), C(!new)>(step: (S, C) -> S, inv: S -> bool, rank: S -> int) {
    && (forall s :: inv(s) ==> 0 <= rank(s))
    && (forall s, c :: inv(s) ==> step(s, c) == s || rank(step(s, c)) < rank(s))
  }

  /** An actor moves whatever its turn says about the other choices. */
  ghost predicate CanMove<S, C(!new), A>(step: (S, C) -> S, actor: C -> A, s: S, a: A) {
    forall c :: actor(c) == a ==> step(s, c) != s
  }

  /** No state short of the end is stuck. */
  ghost predicate DeadlockFree<S(!new), C(!new), A(!new)>(
    step: (S, C) -> S, inv: S -> bool, done: S -> bool, actor: C -> A, actors: set<A>)
  {
    forall s :: inv(s) && !done(s) ==> exists a :: a in actors && CanMove(step, actor, s, a)
  }

  ghost predicate Lasting<S(!new), C(!new)>(step: (S, C) -> S, inv: S -> bool, done: S -> bool) {
    forall s, c :: inv(s) && done(s) ==> done(step(s, c))
  }

  /** A stretch of a schedule in which every actor gets a turn. */
  ghost predicate EveryoneActs<C, A>(actor: C -> A, actors: set<A>, block: seq<C>) {
    forall a | a in actors :: ActsIn(actor, a, block)
  }

  ghost predicate ActsIn<C, A>(actor: C -> A, a: A, block: seq<C>) {
    exists i :: 0 <= i < |block| && actor(block[i]) == a
  }

  lemma {:induction false} RunConcat<S, C>(step: (S, C) -> S, s: S, a: seq<C>, b: seq<C>)
    ensures Run(step, s, a + b) == Run(step, Run(step, s, a), b)
  {
    if a == [] {
      assert a + b == b;
    } else {
      assert (a + b)[1..] == a[1..] + b;
      RunConcat(step, step(s, a[0]), a[1..], b);
    }
  }

  lemma {:induction false} RunSnoc<S, C>(step: (S, C) -> S, s: S, a: seq<C>, c: C)
    ensures Run(step, s, a + [c]) == step(Run(step, s, a), c)
  {
    RunConcat(step, s, a, [c]);
    assert [c][1..] == [];
  }

  /** An inductive invariant holds after every schedule. */
  lemma {:induction false} RunKeeps<S(!new), C(!new)>(step: (S, C) -> S, inv: S -> bool, s: S, schedule: seq<C>)
    requires Inductive(step, inv) && inv(s)
    ensures inv(Run(step, s, schedule))
  {
    if schedule != [] {
      RunKeeps(step, inv, step(s, schedule[0]), schedule[1..]);
    }
  }

  /** However long the schedule, only as many turns move the system as its rank allows. */
  lemma {:induction false} MovesBounded<S(!new), C(!new)>(
    step: (S, C) -> S, inv: S -> bool, rank: S -> int, s: S, schedule: seq<C>)
    requires Inductive(step, inv) && Ranked(step, inv, rank) && inv(s)
    ensures Moves(step, s, schedule) <= rank(s) - rank(Run(step, s, schedule))
  {
    if schedule != [] {
      MovesBounded(step, inv, rank, step(s, schedule[0]), schedule[1..]);
    }
  }

  /** A block with a turn for an actor that can move does move the system. */
  lemma {:induction false} BlockMoves<S(!new), C(!new), A(!new)>(
    step: (S, C) -> S, inv: S -> bool, rank: S -> int, actor: C -> A, s: S, a: A, block: seq<C>)
    requires Inductive(step, inv) && Ranked(step, inv, rank) && inv(s)
    requires CanMove(step, actor, s, a) && ActsIn(actor, a, block)
    ensures rank(Run(step, s, block)) < rank(s)
  {
    var next := step(s, block[0]);
    if next != s {
      MovesBounded(step, inv, rank, next, block[1..]);
    } else {
      var i :| 0 <= i < |block| && actor(block[i]) == a;
      assert block[1..][i - 1] == block[i];
      BlockMoves(step, inv, rank, actor, s, a, block[1..]);
    }
  }

  /** Every run that is fair for long enough reaches the end. */
  lemma {:induction false} FairRunsFinish<S(!new), C(!new), A(!new)>(
    step: (S, C) -> S, inv: S -> bool, rank: S -> int, done: S -> bool,
    actor: C -> A, actors: set<A>, s: S, blocks: seq<seq<C>>)
    requires Inductive(step, inv) && Ranked(step, inv, rank) && inv(s)
    requires DeadlockFree(step, inv, done, actor, actors)
    requires Lasting(step, inv, done)
    requires forall b | b in blocks :: EveryoneActs(actor, actors, b)
    requires |blocks| > rank(s)
    ensures done(Run(step, s, Flatten(blocks)))
    decreases |blocks|
  {
    if done(s) {
      var stays := x => inv(x) && done(x);
      RunKeeps(step, stays, s, Flatten(blocks));
    } else {
      var a :| a in actors && CanMove(step, actor, s, a);
      var b := blocks[0];
      assert b in blocks && ActsIn(actor, a, b);
      BlockMoves(step, inv, rank, actor, s, a, b);
      RunKeeps(step, inv, s, b);
      FairRunsFinish(step, inv, rank, done, actor, actors, Run(step, s, b), blocks[1..]);
      RunConcat(step, s, b, Flatten(blocks[1..]));
    }
  }

  /** Step by step, the system does what a simpler one does to the state with some of it erased. */
  ghost predicate Refines<S(!new), C(!new), T, D>(
    step: (S, C) -> S, inv: S -> bool, simple: (T, D) -> T, erase: S -> T, tag: C -> D)
  {
    forall s, c :: inv(s) ==> erase(step(s, c)) == simple(erase(s), tag(c))
  }

  function Relabel<C, D>(tag: C -> D, schedule: seq<C>): seq<D> {
    seq(|schedule|, i requires 0 <= i < |schedule| => tag(schedule[i]))
  }

  /** Then so does every run. */
  lemma {:induction false} RunRefines<S(!new), C(!new), T, D>(
    step: (S, C) -> S, inv: S -> bool, simple: (T, D) -> T, erase: S -> T, tag: C -> D, s: S, schedule: seq<C>)
    requires Inductive(step, inv) && inv(s) && Refines(step, inv, simple, erase, tag)
    ensures erase(Run(step, s, schedule)) == Run(simple, erase(s), Relabel(tag, schedule))
  {
    if schedule != [] {
      RunRefines(step, inv, simple, erase, tag, step(s, schedule[0]), schedule[1..]);
      assert Relabel(tag, schedule)[1..] == Relabel(tag, schedule[1..]);
    }
  }
}

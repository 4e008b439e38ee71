/** A loop that waits until its partner is parked on a channel and then sends without blocking
    and without looking at the result (bench/synctest_bench.c). */
module SynctestHandoff {
  import opened Wrappers
  import opened Interleaving
  import opened Sequences
  import opened Channels

  const TWO32: nat := 0x1_0000_0000

  datatype Who = Main | Child
  datatype MainPc = Wait | TrySend | CloseChan | LastWait | Finished
  datatype ChildPc = Take | Taking | AddOne | Gone

  /** The channel, the shared counter and both goroutines' locals. `pass` counts the passes of
      the loop and `results` is what each chan_try_send returned. */
  datatype State = State(n: nat, c: Chan, parkedGot: nat, main: MainPc, pass: nat, results: seq<bool>, child: ChildPc)

  function NextPass(n: nat, pass: nat): MainPc {
    if pass < n then Wait else CloseChan
  }

  function Init(n: nat): State {
    State(n, Make(0), 0, NextPass(n, 0), 0, [], Take)
  }

  /** The child is durably blocked or gone. */
  predicate AtRest(child: ChildPc, c: Chan) {
    (child.Taking? && c.receiver) || child.Gone?
  }

  /** synctest_wait returns only when every other goroutine in the bubble, which here is the child,
      is at rest. */
  predicate MainBlocked(s: State) {
    ((s.main.Wait? || s.main.LastWait?) && !AtRest(s.child, s.c)) || s.main.Finished?
  }

  function MainChan(s: State): Chan {
    match s.main
    case TrySend => if CanSend(s.c) then Send(s.c, 1) else s.c
    case CloseChan => Close(s.c)
    case _ => s.c
  }

  function MainNext(s: State): MainPc {
    match s.main
    case Wait => TrySend
    case TrySend => NextPass(s.n, s.pass + 1)
    case CloseChan => LastWait
    case LastWait | Finished => Finished
  }

  function MainStep(s: State): State {
    if MainBlocked(s) then s
    else State(
      s.n, MainChan(s), s.parkedGot, MainNext(s),
      if s.main.TrySend? then s.pass + 1 else s.pass,
      if s.main.TrySend? then s.results + [CanSend(s.c)] else s.results, s.child)
  }

  predicate ChildBlocked(s: State) {
    AtRest(s.child, s.c)
  }

  function ChildChan(s: State): Chan {
    match s.child
    case Take => Recv(s.c)
    case Taking => Collect(s.c)
    case _ => s.c
  }

  predicate Arrives(s: State) {
    |ChildChan(s).got| > |s.c.got|
  }

  function ChildNext(s: State): ChildPc {
    if s.child.AddOne? then Take
    else if ChildChan(s).receiver then Taking
    else if Arrives(s) then AddOne
    else Gone
  }

  function ChildStep(s: State): State {
    if ChildBlocked(s) then s
    else State(
      s.n, ChildChan(s), if s.child.AddOne? then (s.parkedGot + 1) % TWO32 else s.parkedGot,
      s.main, s.pass, s.results, ChildNext(s))
  }

  function Step(s: State, who: Who): State {
    if who == Main then MainStep(s) else ChildStep(s)
  }

  function ActorOf(who: Who): Who { who }

  predicate Done(s: State) { s.main.Finished? }

  /** What every step keeps. The third line is what makes the non-blocking send safe: between the
      wait and the send the child stays parked. */
  predicate Inv(s: State) {
    && Ok(s.c) && s.c.cap == 0 && s.c.sender == None
    && (s.c.receiver || s.c.landed.Some? ==> s.child.Taking?)
    && (s.main.TrySend? ==> s.child.Taking? && s.c.receiver)
    && (s.child.Taking? && !s.c.receiver && s.c.landed == None ==> s.c.closed)
    && (s.c.closed <==> s.main.LastWait? || s.main.Finished?)
    && (s.child.Gone? ==> s.c.closed && Load(s.c) == [])
    && s.pass <= s.n && (s.main.Wait? || s.main.TrySend? <==> s.pass < s.n)
    && |s.c.sent| == s.pass == |s.results| && (forall k :: 0 <= k < |s.results| ==> s.results[k])
    && (s.child.AddOne? ==> |s.c.got| > 0)
    && s.parkedGot == (|s.c.got| - (if s.child.AddOne? then 1 else 0)) % TWO32
    && (s.main.Finished? ==> s.child.Gone?)
  }

  lemma MainKeepsInv(s: State)
    requires Inv(s)
    ensures Inv(MainStep(s))
  {
    hide Send, Close;
  }

  lemma ChildKeepsInv(s: State)
    requires Inv(s)
    ensures Inv(ChildStep(s))
  {
    hide Recv, Collect;
  }

  /** The safety of a state: a send is only tried with the child parked, and every one so far has
      gone through. */
  predicate Safe(s: State) {
    && (s.main.TrySend? ==> s.child.Taking? && s.c.receiver && CanSend(s.c))
    && |s.results| == s.pass && (forall k :: 0 <= k < |s.results| ==> s.results[k])
    && |s.c.got| <= s.pass <= |s.c.got| + 1
  }

  /** How the bubble ends: every value counted (by a 32-bit counter), the channel drained, and nobody blocked in it. */
  predicate Clean(s: State) {
    && s.parkedGot == s.n % 0x1_0000_0000 && s.child.Gone? && s.c.closed && Load(s.c) == [] && !s.c.receiver
    && s.results == seq(s.n, _ => true)
  }

  lemma InvSafe(s: State)
    requires Inv(s)
    ensures Safe(s) && (Done(s) ==> Clean(s))
  {
  }

  /** An upper bound on the turns that can still move the system. */
  function Rank(s: State): int {
    2 * (s.n - s.pass)
    + (match s.main case Wait | CloseChan => 2 case TrySend | LastWait => 1 case Finished => 0)
    + 3 * (s.n - |s.c.got|)
    + (match s.child case AddOne => 3 case Take => 2 case Taking => 1 case Gone => 0)
  }

  lemma StepRanked(s: State, who: Who)
    requires Inv(s)
    ensures 0 <= Rank(s) && (Step(s, who) == s || Rank(Step(s, who)) < Rank(s))
  {
    hide Send, Close, Recv, Collect;
  }

  lemma StepsRanked()
    ensures Inductive(Step, Inv) && Ranked(Step, Inv, Rank)
  {
    forall s, who | Inv(s)
      ensures Inv(Step(s, who)) && (Step(s, who) == s || Rank(Step(s, who)) < Rank(s)) && 0 <= Rank(s)
    {
      MainKeepsInv(s);
      ChildKeepsInv(s);
      StepRanked(s, who);
      hide Inv, Rank, MainStep, ChildStep;
    }
  }

  lemma SomeoneMoves(s: State)
    requires Inv(s) && !Done(s)
    ensures !MainBlocked(s) || !ChildBlocked(s)
  {
  }

  lemma UnblockedMoves(s: State)
    requires Inv(s)
    ensures !MainBlocked(s) ==> CanMove(Step, ActorOf, s, Main)
    ensures !ChildBlocked(s) ==> CanMove(Step, ActorOf, s, Child)
  {
    hide Send, Close;
  }

  lemma NeverStuck()
    ensures DeadlockFree(Step, Inv, Done, ActorOf, {Main, Child}) && Lasting(Step, Inv, Done)
  {
    forall s | Inv(s) && !Done(s)
      ensures exists who :: who in {Main, Child} && CanMove(Step, ActorOf, s, who)
    {
      SomeoneMoves(s);
      UnblockedMoves(s);
      hide Inv, Step, MainBlocked, ChildBlocked;
      if !MainBlocked(s) {
        assert CanMove(Step, ActorOf, s, Main);
      } else {
        assert CanMove(Step, ActorOf, s, Child);
      }
    }
    hide Inv;
  }

  lemma InitOk(n: nat)
    ensures Inv(Init(n)) && Rank(Init(n)) == 5 * n + 4
  {
  }

  /** Safety over whole runs, for every iteration count and interleaving. */
  lemma BubbleIsSafe(n: nat, schedule: seq<Who>)
    ensures var s := Run(Step, Init(n), schedule);
            && s.n == n && Safe(s) && Inv(s)
            && (Done(s) ==> Clean(s))
            && (!Done(s) ==> !MainBlocked(s) || !ChildBlocked(s))
    ensures Moves(Step, Init(n), schedule) <= 5 * n + 4
  {
    var s := Run(Step, Init(n), schedule);
    var sameN := (x: State) => x.n == n;
    assert Inductive(Step, sameN);
    InitOk(n);
    StepsRanked();
    RunKeeps(Step, sameN, Init(n), schedule);
    hide Inv, Init, Rank, Step, Safe, Clean, MainBlocked, ChildBlocked;
    RunKeeps(Step, Inv, Init(n), schedule);
    MovesBounded(Step, Inv, Rank, Init(n), schedule);
    InvSafe(s);
    if !Done(s) { SomeoneMoves(s); }
  }

  /** Liveness: give both goroutines a turn often enough and the bubble's body returns. */
  lemma BubbleFinishes(n: nat, blocks: seq<seq<Who>>)
    requires forall b | b in blocks :: EveryoneActs(ActorOf, {Main, Child}, b)
    requires |blocks| > 5 * n + 4
    ensures Done(Run(Step, Init(n), Flatten(blocks)))
  {
    InitOk(n);
    StepsRanked();
    NeverStuck();
    hide Inv, Init, Rank, Step;
    FairRunsFinish(Step, Inv, Rank, Done, ActorOf, {Main, Child}, Init(n), blocks);
  }

  /** wait_parked_body and parked_child, statement by statement. */
  class Bubble {
    const n: nat
    var c: Chan
    var parkedGot: nat
    var main: MainPc
    var pass: nat
    ghost var results: seq<bool>
    var child: ChildPc

    ghost function View(): State
      reads this
    {
      State(n, c, parkedGot, main, pass, results, child)
    }

    constructor (n: nat)
      ensures View() == Init(n)
    {
      this.n := n;
      c, parkedGot, main, pass, results, child := Make(0), 0, NextPass(n, 0), 0, [], Take;
    }

    method MainTurn()
      modifies this
      ensures View() == MainStep(old(View()))
    {
      match main {
        case Wait =>
          if AtRest(child, c) {
            main := TrySend;
          }
        case TrySend =>
          results := results + [CanSend(c)];
          if CanSend(c) {
            c := Send(c, 1);
          }
          pass := pass + 1;
          main := NextPass(n, pass);
        case CloseChan =>
          c := Close(c);
          main := LastWait;
        case LastWait =>
          if AtRest(child, c) {
            main := Finished;
          }
        case Finished =>
      }
    }

    method ChildTurn()
      modifies this
      ensures View() == ChildStep(old(View()))
    {
      var before := |c.got|;
      match child {
        case Take =>
          c := Recv(c);
          child := if c.receiver then Taking else if |c.got| > before then AddOne else Gone;
        case Taking =>
          if !c.receiver {
            c := Collect(c);
            child := if |c.got| > before then AddOne else Gone;
          }
        case AddOne =>
          parkedGot := (parkedGot + 1) % TWO32;
          child := Take;
        case Gone =>
      }
    }

    /** Any schedule at all, from the start. */
    static method Play(n: nat, schedule: seq<Who>) returns (b: Bubble)
      ensures b.View() == Run(Step, Init(n), schedule) && Safe(b.View())
    {
      b := new Bubble(n);
      for i := 0 to |schedule|
        invariant fresh(b) && b.View() == Run(Step, Init(n), schedule[..i])
      {
        RunSnoc(Step, Init(n), schedule[..i], schedule[i]);
        assert schedule[..i + 1] == schedule[..i] + [schedule[i]];
        if schedule[i] == Main {
          b.MainTurn();
        } else {
          b.ChildTurn();
        }
      }
      assert schedule[..|schedule|] == schedule;
      BubbleIsSafe(n, schedule);
    }
  }
}

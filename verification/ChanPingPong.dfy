/** A value going there and back between two goroutines over two channels of any capacity
    (bench/chan_bench.c). */
module ChanPingPong {
  import opened Wrappers
  import opened Interleaving
  import opened Sequences
  import opened Channels

  datatype Who = Main | Child

  /** Where each goroutine is. Sending, SendingLast, Receiving, Taking and Replying are parked in
      the channel operation before them. */
  datatype MainPc = Send | Sending | Recv | Receiving | SetStop | SendLast | SendingLast | Spinning | Finished
  datatype ChildPc = Take | Taking | ReadStop | Reply | Replying | Leaving | Gone

  /** The shared variables and both goroutines' locals. `round` counts the passes of the timed
      loop, `v` is the value the child holds and `saw` what it has read from the stop flag. */
  datatype State = State(
    n: nat, c1: Chan, c2: Chan, stop: bool, gone: nat,
    main: MainPc, round: nat, child: ChildPc, v: int, saw: seq<bool>)

  function NextRound(n: nat, round: nat): MainPc {
    if round < n then Send else SetStop
  }

  function Init(n: nat, cap: nat): State {
    State(n, Make(cap), Make(cap), false, 0, NextRound(n, 0), 0, Take, 0, [])
  }

  predicate MainBlocked(s: State) {
    match s.main
    case Sending | SendingLast => s.c1.sender.Some?
    case Receiving => s.c2.receiver
    case Spinning => s.gone == 0
    case Finished => true
    case _ => false
  }

  function MainC1(s: State): Chan {
    match s.main
    case Send => Channels.Send(s.c1, 1)
    case SendLast => Channels.Send(s.c1, 0)
    case _ => s.c1
  }

  function MainC2(s: State): Chan {
    match s.main
    case Recv => Channels.Recv(s.c2)
    case Receiving => Collect(s.c2)
    case _ => s.c2
  }

  /** The receive is over. */
  predicate EndsRound(s: State) {
    s.main.Receiving? || (s.main.Recv? && !MainC2(s).receiver)
  }

  function MainNext(s: State): MainPc {
    match s.main
    case Send => if MainC1(s).sender.Some? then Sending else Recv
    case Sending => Recv
    case Recv => if EndsRound(s) then NextRound(s.n, s.round + 1) else Receiving
    case Receiving => NextRound(s.n, s.round + 1)
    case SetStop => SendLast
    case SendLast => if MainC1(s).sender.Some? then SendingLast else Spinning
    case SendingLast => Spinning
    case Spinning | Finished => Finished
  }

  /** What each variable is after the main goroutine's turn. */
  function MainStep(s: State): State {
    if MainBlocked(s) then s
    else State(
      s.n, MainC1(s), MainC2(s), s.stop || s.main.SetStop?, s.gone,
      MainNext(s), if EndsRound(s) then s.round + 1 else s.round, s.child, s.v, s.saw)
  }

  predicate ChildBlocked(s: State) {
    match s.child
    case Taking => s.c1.receiver
    case Replying => s.c2.sender.Some?
    case Gone => true
    case _ => false
  }

  function ChildC1(s: State): Chan {
    match s.child
    case Take => Channels.Recv(s.c1)
    case Taking => Collect(s.c1)
    case _ => s.c1
  }

  function ChildC2(s: State): Chan {
    if s.child.Reply? then Channels.Send(s.c2, s.v) else s.c2
  }

  /** A value has arrived, as opposed to the channel being closed. */
  predicate Arrives(s: State) {
    |ChildC1(s).got| > |s.c1.got|
  }

  function ChildNext(s: State): ChildPc {
    match s.child
    case Take => if ChildC1(s).receiver then Taking else if Arrives(s) then ReadStop else Leaving
    case Taking => if Arrives(s) then ReadStop else Leaving
    case ReadStop => if s.stop then Leaving else Reply
    case Reply => if ChildC2(s).sender.Some? then Replying else Take
    case Replying => Take
    case Leaving | Gone => Gone
  }

  /** What each variable is after the child's turn. */
  function ChildStep(s: State): State {
    if ChildBlocked(s) then s
    else State(
      s.n, ChildC1(s), ChildC2(s), s.stop, if s.child.Leaving? then s.gone + 1 else s.gone,
      s.main, s.round, ChildNext(s),
      if Arrives(s) then ChildC1(s).got[|s.c1.got|] else s.v,
      if s.child.ReadStop? then s.saw + [s.stop] else s.saw)
  }

  function Step(s: State, who: Who): State {
    if who == Main then MainStep(s) else ChildStep(s)
  }

  function ActorOf(who: Who): Who { who }

  predicate Done(s: State) { s.main.Finished? }

  predicate Stopped(main: MainPc) {
    main.SendLast? || main.SendingLast? || main.Spinning? || main.Finished?
  }

  /** The child has a value in hand. */
  predicate Holds(child: ChildPc) { child.ReadStop? || child.Reply? }

  /** How the parked goroutines and the channels fit together. */
  predicate ParkedOk(s: State) {
    && Ok(s.c1) && Ok(s.c2) && !s.c1.closed && !s.c2.closed && s.c1.cap == s.c2.cap
    && (s.c1.sender.Some? ==> s.main.Sending? || s.main.SendingLast?)
    && (s.child.Taking? <==> s.c1.receiver || s.c1.landed.Some?)
    && (s.c2.sender.Some? ==> s.child.Replying?)
    && (s.main.Receiving? <==> s.c2.receiver || s.c2.landed.Some?)
  }

  /** How many values each goroutine has sent and taken. */
  predicate CountsOk(s: State) {
    && s.round <= s.n && (s.round == s.n <==> s.main.SetStop? || Stopped(s.main))
    && |s.c2.got| == s.round
    && |s.c1.sent| == s.round + (if s.main.Send? || s.main.SetStop? || s.main.SendLast? then 0 else 1)
    && |s.c1.got| == |s.c2.sent| + (if Holds(s.child) || s.child.Leaving? || s.child.Gone? then 1 else 0)
    && |s.saw| == |s.c1.got| - (if s.child.ReadStop? then 1 else 0)
    && (s.child.Leaving? || s.child.Gone? <==> |s.saw| == s.n + 1)
    && s.gone == (if s.child.Gone? then 1 else 0)
    && (s.stop <==> Stopped(s.main))
    && (s.main.Finished? ==> s.child.Gone?)
    && |s.saw| <= s.n + 1 && (forall i :: 0 <= i < |s.saw| ==> (s.saw[i] <==> i == s.n))
  }

  /** The child echoes: its replies are the messages it has taken, in order. */
  predicate EchoOk(s: State) {
    && (forall i :: 0 <= i < |s.c1.sent| ==> s.c1.sent[i] == if i < s.n then 1 else 0)
    && (Holds(s.child) ==> |s.c1.got| > 0 && s.v == s.c1.got[|s.c1.got| - 1])
    && s.c2.sent <= s.c1.got
  }

  /** What every step keeps. */
  predicate Inv(s: State) {
    ParkedOk(s) && CountsOk(s) && EchoOk(s)
  }

  lemma MainKeepsParked(s: State)
    requires ParkedOk(s)
    ensures ParkedOk(MainStep(s))
  {
    hide Channels.Send, Channels.Recv, Collect;
  }

  lemma ChildKeepsParked(s: State)
    requires ParkedOk(s)
    ensures ParkedOk(ChildStep(s))
  {
    hide Channels.Send, Channels.Recv, Collect;
  }

  lemma MainKeepsCounts(s: State)
    requires ParkedOk(s) && CountsOk(s)
    ensures CountsOk(MainStep(s))
  {
    hide Channels.Send, Channels.Recv, Collect;
  }

  lemma ChildKeepsCounts(s: State)
    requires ParkedOk(s) && CountsOk(s)
    ensures CountsOk(ChildStep(s))
  {
    hide Channels.Send, Channels.Recv, Collect;
  }

  lemma MainKeepsEcho(s: State)
    requires ParkedOk(s) && CountsOk(s) && EchoOk(s)
    ensures EchoOk(MainStep(s))
  {
    hide Channels.Send, Channels.Recv, Collect;
  }

  lemma ChildKeepsEcho(s: State)
    requires ParkedOk(s) && CountsOk(s) && EchoOk(s)
    ensures EchoOk(ChildStep(s))
  {
    hide Channels.Send, Channels.Recv, Collect;
  }

  lemma StepKeepsInv(s: State, who: Who)
    requires Inv(s)
    ensures Inv(Step(s, who))
  {
    if who == Main {
      MainKeepsParked(s);
      MainKeepsCounts(s);
      MainKeepsEcho(s);
    } else {
      ChildKeepsParked(s);
      ChildKeepsCounts(s);
      ChildKeepsEcho(s);
    }
    hide ParkedOk, CountsOk, EchoOk, MainStep, ChildStep;
  }

  /** How many values are on their way: in a channel, parked at one, or in the child's hand. */
  function InFlight(s: State): nat {
    |Load(s.c1)| + |Load(s.c2)| + if Holds(s.child) then 1 else 0
  }

  /** The safety of a state: at most one value is in flight, no send has blocked if there is a
      buffer, the child's replies echo the first messages, it has read the stop flag set on
      message n + 1 only and replied to none but the first n, and no channel was closed. */
  predicate Safe(s: State) {
    && InFlight(s) <= 1
    && (s.c1.cap > 0 ==> s.c1.sender == None && s.c2.sender == None)
    && s.c2.got <= s.c2.sent <= s.c1.got <= s.c1.sent && s.c1.sent <= seq(s.n, _ => 1) + [0]
    && |s.c2.sent| <= s.n && |s.saw| <= s.n + 1
    && (forall i :: 0 <= i < |s.saw| ==> (s.saw[i] <==> i == s.n))
    && !s.c1.closed && !s.c2.closed
  }

  lemma InvSafe(s: State)
    requires Inv(s)
    ensures Safe(s)
  {
  }

  /** A channel that may be freed: nothing in it and nobody parked at it. */
  predicate Idle(c: Chan) {
    Load(c) == [] && !c.receiver
  }

  /** How pingpong leaves things: n messages and n replies of 1, one last 0, and two idle channels. */
  predicate Clean(s: State) {
    && Idle(s.c1) && Idle(s.c2) && s.child.Gone? && s.gone == 1 && s.round == s.n
    && s.c1.got == s.c1.sent == seq(s.n, _ => 1) + [0]
    && s.c2.got == s.c2.sent == seq(s.n, _ => 1)
  }

  lemma DoneIsClean(s: State)
    requires Inv(s) && Done(s)
    ensures Clean(s)
  {
    assert s.c1.sent == seq(s.n, _ => 1) + [0];
  }

  function MainRank(main: MainPc): nat {
    match main
    case Send | SetStop => 5
    case Sending | SendLast => 4
    case Recv | SendingLast => 3
    case Receiving => 2
    case Spinning => 1
    case Finished => 0
  }

  function ChildRank(child: ChildPc): nat {
    match child
    case Reply => 8
    case Replying => 7
    case Take => 5
    case Taking => 4
    case ReadStop => 3
    case Leaving => 1
    case Gone => 0
  }

  /** An upper bound on the turns that can still move the system. */
  function Rank(s: State): int {
    6 * (s.n - s.round) + MainRank(s.main) + 6 * (s.n + 1 - |s.saw|) + ChildRank(s.child)
  }

  lemma MainRanked(s: State)
    requires Inv(s)
    ensures 0 <= Rank(s) && (MainStep(s) == s || Rank(MainStep(s)) < Rank(s))
  {
    hide Channels.Send, Channels.Recv, Collect, EchoOk;
  }

  lemma ChildRanked(s: State)
    requires Inv(s)
    ensures ChildStep(s) == s || Rank(ChildStep(s)) < Rank(s)
  {
    hide Channels.Send, Channels.Recv, Collect, EchoOk;
  }

  lemma StepsRanked()
    ensures Inductive(Step, Inv) && Ranked(Step, Inv, Rank)
  {
    forall s, who | Inv(s)
      ensures Inv(Step(s, who)) && (Step(s, who) == s || Rank(Step(s, who)) < Rank(s)) && 0 <= Rank(s)
    {
      StepKeepsInv(s, who);
      MainRanked(s);
      ChildRanked(s);
      hide Inv, Rank, MainStep, ChildStep;
    }
  }

  /** Two parked goroutines would each be waiting for a value that the other has sent or owes. */
  lemma SomeoneMoves(s: State)
    requires Inv(s) && !Done(s)
    ensures !MainBlocked(s) || !ChildBlocked(s)
  {
  }

  lemma UnblockedMoves(s: State)
    requires Inv(s)
    ensures !MainBlocked(s) ==> CanMove(Step, ActorOf, s, Main)
    ensures !ChildBlocked(s) ==> CanMove(Step, ActorOf, s, Child)
  {
    hide Inv, Channels.Send, Channels.Recv, Collect;
  }

  lemma NeverStuck()
    ensures DeadlockFree(Step, Inv, Done, ActorOf, {Main, Child}) && Lasting(Step, Inv, Done)
  {
    forall s | Inv(s) && !Done(s)
      ensures exists who :: who in {Main, Child} && CanMove(Step, ActorOf, s, who)
    {
      SomeoneMoves(s);
      UnblockedMoves(s);
      hide Inv, Step, MainBlocked, ChildBlocked;
      if !MainBlocked(s) {
        assert CanMove(Step, ActorOf, s, Main);
      } else {
        assert CanMove(Step, ActorOf, s, Child);
      }
    }
    hide Inv;
  }

  lemma InitOk(n: nat, cap: nat)
    ensures Inv(Init(n, cap)) && Rank(Init(n, cap)) == 12 * n + 16
  {
  }

  /** Safety over whole runs, for every capacity, iteration count and interleaving. */
  lemma PingPongIsSafe(n: nat, cap: nat, schedule: seq<Who>)
    ensures var s := Run(Step, Init(n, cap), schedule);
            && s.n == n && s.c1.cap == s.c2.cap == cap && Safe(s) && Inv(s)
            && (Done(s) ==> Clean(s))
            && (!Done(s) ==> !MainBlocked(s) || !ChildBlocked(s))
    ensures Moves(Step, Init(n, cap), schedule) <= 12 * n + 16
  {
    var s := Run(Step, Init(n, cap), schedule);
    var same := (x: State) => Inv(x) && x.n == n && x.c1.cap == x.c2.cap == cap;
    InitOk(n, cap);
    StepsRanked();
    KeepsParameters(n, cap);
    RunKeeps(Step, same, Init(n, cap), schedule);
    hide Inv, Rank, Step, Safe, MainBlocked, ChildBlocked;
    MovesBounded(Step, Inv, Rank, Init(n, cap), schedule);
    InvSafe(s);
    if Done(s) { DoneIsClean(s); } else { SomeoneMoves(s); }
  }

  lemma KeepsParameters(n: nat, cap: nat)
    ensures Inductive(Step, (x: State) => Inv(x) && x.n == n && x.c1.cap == x.c2.cap == cap)
  {
    forall s, who | Inv(s) && s.n == n && s.c1.cap == s.c2.cap == cap
      ensures Inv(Step(s, who)) && Step(s, who).n == n && Step(s, who).c1.cap == Step(s, who).c2.cap == cap
    {
      StepKeepsInv(s, who);
      hide Channels.Send, Channels.Recv, Collect, CountsOk, EchoOk;
    }
  }

  /** Liveness: give both goroutines a turn often enough and the ping pong finishes. */
  lemma PingPongFinishes(n: nat, cap: nat, blocks: seq<seq<Who>>)
    requires forall b | b in blocks :: EveryoneActs(ActorOf, {Main, Child}, b)
    requires |blocks| > 12 * n + 16
    ensures Done(Run(Step, Init(n, cap), Flatten(blocks)))
  {
    InitOk(n, cap);
    StepsRanked();
    NeverStuck();
    hide Inv, Init, Rank, Step;
    FairRunsFinish(Step, Inv, Rank, Done, ActorOf, {Main, Child}, Init(n, cap), blocks);
  }

  /** pingpong and pingpong_child, statement by statement, over the variables they share. */
  class PingPong {
    const n: nat
    var c1: Chan
    var c2: Chan
    var stop: bool
    var gone: nat
    var main: MainPc
    var round: nat
    var child: ChildPc
    var v: int
    ghost var saw: seq<bool>

    ghost function View(): State
      reads this
    {
      State(n, c1, c2, stop, gone, main, round, child, v, saw)
    }

    constructor (n: nat, cap: nat)
      ensures View() == Init(n, cap)
    {
      this.n := n;
      c1, c2, stop, gone := Make(cap), Make(cap), false, 0;
      main, round, child, v, saw := NextRound(n, 0), 0, Take, 0, [];
    }

    method MainTurn()
      modifies this
      ensures View() == MainStep(old(View()))
    {
      match main {
        case Send =>
          c1 := Channels.Send(c1, 1);
          main := if c1.sender.Some? then Sending else Recv;
        case Sending =>
          if c1.sender == None {
            main := Recv;
          }
        case Recv =>
          c2 := Channels.Recv(c2);
          if c2.receiver {
            main := Receiving;
          } else {
            round := round + 1;
            main := NextRound(n, round);
          }
        case Receiving =>
          if !c2.receiver {
            c2 := Collect(c2);
            round := round + 1;
            main := NextRound(n, round);
          }
        case SetStop =>
          stop := true;
          main := SendLast;
        case SendLast =>
          c1 := Channels.Send(c1, 0);
          main := if c1.sender.Some? then SendingLast else Spinning;
        case SendingLast =>
          if c1.sender == None {
            main := Spinning;
          }
        case Spinning =>
          if gone != 0 {
            main := Finished;
          }
        case Finished =>
      }
    }

    method ChildTurn()
      modifies this
      ensures View() == ChildStep(old(View()))
    {
      var before := |c1.got|;
      match child {
        case Take =>
          c1 := Channels.Recv(c1);
          if c1.receiver {
            child := Taking;
          } else {
            child := if |c1.got| > before then ReadStop else Leaving;
          }
        case Taking =>
          if !c1.receiver {
            c1 := Collect(c1);
            child := if |c1.got| > before then ReadStop else Leaving;
          }
        case ReadStop =>
          saw := saw + [stop];
          child := if stop then Leaving else Reply;
        case Reply =>
          c2 := Channels.Send(c2, v);
          child := if c2.sender.Some? then Replying else Take;
        case Replying =>
          if c2.sender == None {
            child := Take;
          }
        case Leaving =>
          gone := gone + 1;
          child := Gone;
        case Gone =>
      }
      if |c1.got| > before {
        v := c1.got[before];
      }
    }

    /** Any schedule at all, from the start. */
    static method Play(n: nat, cap: nat, schedule: seq<Who>) returns (p: PingPong)
      ensures p.View() == Run(Step, Init(n, cap), schedule) && Safe(p.View())
    {
      p := new PingPong(n, cap);
      for i := 0 to |schedule|
        invariant fresh(p) && p.View() == Run(Step, Init(n, cap), schedule[..i])
      {
        RunSnoc(Step, Init(n, cap), schedule[..i], schedule[i]);
        assert schedule[..i + 1] == schedule[..i] + [schedule[i]];
        if schedule[i] == Main {
          p.MainTurn();
        } else {
          p.ChildTurn();
        }
      }
      assert schedule[..|schedule|] == schedule;
      PingPongIsSafe(n, cap, schedule);
    }
  }
}

/** The unbuffered channel ping pong again, with every timed operation a select whose second arm
    receives from a quit channel that nobody sends on (bench/select_bench.c). */
module SelectPingPong {
  import opened Wrappers
  import opened Interleaving
  import opened Sequences
  import opened Channels
  import Plain = ChanPingPong

  type Who = Plain.Who

  datatype Arm = Work | Quit

  /** A turn of one goroutine. If its select finds both arms ready, it takes `pick`. */
  datatype Turn = Turn(who: Who, pick: Arm)

  /** The program counters are those of the plain ping pong; Send, Recv, Take and Reply are
      selects here. `quitters` are the goroutines parked on the quit channel by their select and
      `arms` is what every finished select has returned. */
  datatype State = State(
    n: nat, c1: Chan, c2: Chan, quit: Chan, quitters: set<Who>, stop: bool, gone: nat,
    main: Plain.MainPc, round: nat, child: Plain.ChildPc, v: int, saw: seq<bool>, arms: seq<Arm>)

  function Init(n: nat): State {
    State(n, Make(0), Make(0), Make(0), {}, false, 0, Plain.NextRound(n, 0), 0, Plain.Take, 0, [], [])
  }

  /** The arm a select takes at once, or None if it has to park on both channels. */
  function Choose(workReady: bool, quitReady: bool, pick: Arm): Option<Arm> {
    if workReady && quitReady then Some(pick)
    else if workReady then Some(Work)
    else if quitReady then Some(Quit)
    else None
  }

  predicate Selects(who: Who, s: State) {
    if who == Plain.Main then s.main.Send? || s.main.Recv? else s.child.Take? || s.child.Reply?
  }

  /** Parked in a select. */
  predicate Selecting(who: Who, s: State) {
    if who == Plain.Main then s.main.Sending? || s.main.Receiving? else s.child.Taking? || s.child.Replying?
  }

  predicate WorkReady(who: Who, s: State) {
    if who == Plain.Main then (if s.main.Send? then CanSend(s.c1) else CanRecv(s.c2))
    else (if s.child.Take? then CanRecv(s.c1) else CanSend(s.c2))
  }

  function Chosen(s: State, t: Turn): Option<Arm> {
    Choose(WorkReady(t.who, s), CanRecv(s.quit), t.pick)
  }

  /** The select took the quit arm, and so did nothing to the working channel. */
  predicate TakesQuit(s: State, t: Turn) {
    Selects(t.who, s) && Chosen(s, t) == Some(Quit)
  }

  /** A select that parks puts its entry on both channels; one that has been claimed through its
      working channel takes the other entry off again. */
  function QuittersAfter(s: State, t: Turn): set<Who> {
    if Selects(t.who, s) && Chosen(s, t) == None then s.quitters + {t.who}
    else if Selecting(t.who, s) then s.quitters - {t.who}
    else s.quitters
  }

  function ArmsAfter(s: State, t: Turn): seq<Arm> {
    if Selects(t.who, s) && Chosen(s, t).Some? then s.arms + [Chosen(s, t).value]
    else if Selecting(t.who, s) then s.arms + [Work]
    else s.arms
  }

  predicate MainBlocked(s: State) {
    match s.main
    case Sending | SendingLast => s.c1.sender.Some?
    case Receiving => s.c2.receiver
    case Spinning => s.gone == 0
    case Finished => true
    case _ => false
  }

  function MainC1(s: State, t: Turn): Chan {
    match s.main
    case Send => if TakesQuit(s, t) then s.c1 else Channels.Send(s.c1, 1)
    case SendLast => Channels.Send(s.c1, 0)
    case _ => s.c1
  }

  function MainC2(s: State, t: Turn): Chan {
    match s.main
    case Recv => if TakesQuit(s, t) then s.c2 else Channels.Recv(s.c2)
    case Receiving => Collect(s.c2)
    case _ => s.c2
  }

  predicate EndsRound(s: State, t: Turn) {
    s.main.Receiving? || (s.main.Recv? && Chosen(s, t).Some?)
  }

  /** pingpong_body ignores which arm was taken. */
  function MainNext(s: State, t: Turn): Plain.MainPc {
    match s.main
    case Send => if Chosen(s, t) == None then Plain.Sending else Plain.Recv
    case Sending => Plain.Recv
    case Recv => if EndsRound(s, t) then Plain.NextRound(s.n, s.round + 1) else Plain.Receiving
    case Receiving => Plain.NextRound(s.n, s.round + 1)
    case SetStop => Plain.SendLast
    case SendLast => if MainC1(s, t).sender.Some? then Plain.SendingLast else Plain.Spinning
    case SendingLast => Plain.Spinning
    case Spinning | Finished => Plain.Finished
  }

  function QuitAfter(s: State, t: Turn): Chan {
    if TakesQuit(s, t) then Channels.Recv(s.quit) else s.quit
  }

  /** What each variable is after the main goroutine's turn. */
  function MainStep(s: State, t: Turn): State {
    if MainBlocked(s) then s
    else State(
      s.n, MainC1(s, t), MainC2(s, t), QuitAfter(s, t), QuittersAfter(s, t), s.stop || s.main.SetStop?, s.gone,
      MainNext(s, t), if EndsRound(s, t) then s.round + 1 else s.round, s.child, s.v, s.saw, ArmsAfter(s, t))
  }

  predicate ChildBlocked(s: State) {
    match s.child
    case Taking => s.c1.receiver
    case Replying => s.c2.sender.Some?
    case Gone => true
    case _ => false
  }

  /** The value that the select on `c` or `quit` leaves in the child's variable. */
  function ReceivedInto(v: int, before: Chan, after: Chan): int {
    if |after.got| > |before.got| then after.got[|before.got|] else v
  }

  function ChildC1(s: State, t: Turn): Chan {
    match s.child
    case Take => if TakesQuit(s, t) then s.c1 else Channels.Recv(s.c1)
    case Taking => Collect(s.c1)
    case _ => s.c1
  }

  function ChildC2(s: State, t: Turn): Chan {
    if s.child.Reply? && !TakesQuit(s, t) then Channels.Send(s.c2, s.v) else s.c2
  }

  /** pingpong_child leaves as soon as a select takes another arm than the first. */
  function ChildNext(s: State, t: Turn): Plain.ChildPc {
    match s.child
    case Take =>
      if Chosen(s, t) == None then Plain.Taking
      else if Chosen(s, t) == Some(Work) then Plain.ReadStop else Plain.Leaving
    case Taking => Plain.ReadStop
    case ReadStop => if s.stop then Plain.Leaving else Plain.Reply
    case Reply =>
      if Chosen(s, t) == None then Plain.Replying
      else if Chosen(s, t) == Some(Work) then Plain.Take else Plain.Leaving
    case Replying => Plain.Take
    case Leaving | Gone => Plain.Gone
  }

  /** What each variable is after the child's turn. */
  function ChildStep(s: State, t: Turn): State {
    if ChildBlocked(s) then s
    else State(
      s.n, ChildC1(s, t), ChildC2(s, t), QuitAfter(s, t), QuittersAfter(s, t), s.stop,
      if s.child.Leaving? then s.gone + 1 else s.gone, s.main, s.round, ChildNext(s, t),
      ReceivedInto(ReceivedInto(s.v, s.c1, ChildC1(s, t)), s.quit, QuitAfter(s, t)),
      if s.child.ReadStop? then s.saw + [s.stop] else s.saw, ArmsAfter(s, t))
  }

  function Step(s: State, t: Turn): State {
    if t.who == Plain.Main then MainStep(s, t) else ChildStep(s, t)
  }

  function ActorOf(t: Turn): Who { t.who }

  /** The plain ping pong's view of a state: the quit channel is not there. */
  function Erase(s: State): Plain.State {
    Plain.State(s.n, s.c1, s.c2, s.stop, s.gone, s.main, s.round, s.child, s.v, s.saw)
  }

  /** The quit channel stays open and empty, each goroutine is on it exactly while it is parked in
      a select, and the first arm is the only one that any select has taken. */
  predicate QuitIdle(s: State) {
    && s.quit == Make(0)
    && (forall who :: who in s.quitters <==> Selecting(who, s))
    && (forall i :: 0 <= i < |s.arms| ==> s.arms[i] == Work)
  }

  /** What every step keeps. */
  predicate Inv(s: State) {
    QuitIdle(s) && Plain.Inv(Erase(s))
  }

  predicate Done(s: State) { Plain.Done(Erase(s)) }

  function Rank(s: State): int { Plain.Rank(Erase(s)) }

  /** Nobody sends on the quit channel, so its arm is never ready. */
  lemma QuitNeverTaken(s: State, t: Turn)
    requires QuitIdle(s)
    ensures Chosen(s, t) == (if WorkReady(t.who, s) then Some(Work) else None) && !TakesQuit(s, t)
  {
  }

  lemma KeepsQuitIdle(s: State, t: Turn)
    requires QuitIdle(s)
    ensures Step(s, t) == s || ((forall i :: 0 <= i < |ArmsAfter(s, t)| ==> ArmsAfter(s, t)[i] == Work) && QuitAfter(s, t) == Make(0))
  {
    QuitNeverTaken(s, t);
    hide Chosen, MainStep, ChildStep, WorkReady;
  }

  /** A select does what its first arm alone would do. */
  lemma MainRefines(s: State, pick: Arm)
    requires QuitIdle(s) && Plain.ParkedOk(Erase(s))
    ensures Erase(MainStep(s, Turn(Plain.Main, pick))) == Plain.MainStep(Erase(s))
  {
    QuitNeverTaken(s, Turn(Plain.Main, pick));
    hide Chosen, TakesQuit, QuittersAfter, ArmsAfter, QuitAfter, Channels.Send, Channels.Recv, Collect;
  }

  lemma ChildRefines(s: State, pick: Arm)
    requires QuitIdle(s) && Plain.ParkedOk(Erase(s))
    ensures Erase(ChildStep(s, Turn(Plain.Child, pick))) == Plain.ChildStep(Erase(s))
  {
    QuitNeverTaken(s, Turn(Plain.Child, pick));
    hide Chosen, TakesQuit, QuittersAfter, ArmsAfter, Channels.Send, Channels.Recv, Collect;
  }

  lemma KeepsQuitters(s: State, t: Turn)
    requires QuitIdle(s)
    ensures forall who :: who in Step(s, t).quitters <==> Selecting(who, Step(s, t))
  {
    QuitNeverTaken(s, t);
    hide TakesQuit, ArmsAfter, QuitAfter, Channels.Send, Channels.Recv, Collect;
  }

  lemma StepRefines(s: State, t: Turn)
    requires Inv(s)
    ensures Inv(Step(s, t)) && Erase(Step(s, t)) == Plain.Step(Erase(s), t.who)
  {
    if t.who == Plain.Main { MainRefines(s, t.pick); } else { ChildRefines(s, t.pick); }
    KeepsQuitIdle(s, t);
    KeepsQuitters(s, t);
    Plain.StepKeepsInv(Erase(s), t.who);
    hide Selecting, Plain.Inv, Plain.Step, ArmsAfter;
  }

  /** A turn that changes anything also changes what the plain ping pong sees. */
  lemma MovesShow(s: State, t: Turn)
    ensures Step(s, t) == s || Erase(Step(s, t)) != Erase(s)
  {
    hide TakesQuit, QuittersAfter, ArmsAfter, QuitAfter, Channels.Send, Channels.Recv, Collect, WorkReady;
  }

  /** Every step, and so every run, is one of the plain unbuffered ping pong. */
  lemma SelectRefinesPlain()
    ensures Inductive(Step, Inv) && Refines(Step, Inv, Plain.Step, Erase, ActorOf)
  {
    forall s, t | Inv(s)
      ensures Inv(Step(s, t)) && Erase(Step(s, t)) == Plain.Step(Erase(s), ActorOf(t))
    {
      StepRefines(s, t);
      hide Inv, Step, Erase, Plain.Step;
    }
  }

  lemma InitOk(n: nat)
    ensures Inv(Init(n)) && Erase(Init(n)) == Plain.Init(n, 0) && Rank(Init(n)) == 12 * n + 16
  {
    Plain.InitOk(n, 0);
  }

  /** Safety over whole runs: whatever the interleaving and whichever ready arm a select prefers,
      the first arm is the only one ever taken, and the run is one of the plain ping pong at
      capacity 0, with all that is known of those. */
  lemma SelectIsSafe(n: nat, schedule: seq<Turn>)
    ensures var s := Run(Step, Init(n), schedule);
            && Inv(s)
            && Erase(s) == Run(Plain.Step, Plain.Init(n, 0), Relabel(ActorOf, schedule))
            && s.n == n && Plain.Safe(Erase(s))
            && (Done(s) ==> Plain.Clean(Erase(s)) && s.quitters == {})
            && (!Done(s) ==> !MainBlocked(s) || !ChildBlocked(s))
  {
    var s := Run(Step, Init(n), schedule);
    InitOk(n);
    SelectRefinesPlain();
    RunKeeps(Step, Inv, Init(n), schedule);
    RunRefines(Step, Inv, Plain.Step, Erase, ActorOf, Init(n), schedule);
    Plain.PingPongIsSafe(n, 0, Relabel(ActorOf, schedule));
    hide Plain.Inv, Plain.Safe, Init, Step;
    if Done(s) { assert s.quitters == {}; }
  }

  lemma StepsRanked()
    ensures Inductive(Step, Inv) && Ranked(Step, Inv, Rank)
  {
    forall s, t | Inv(s)
      ensures Inv(Step(s, t)) && (Step(s, t) == s || Rank(Step(s, t)) < Rank(s)) && 0 <= Rank(s)
    {
      StepRefines(s, t);
      MovesShow(s, t);
      Plain.MainRanked(Erase(s));
      Plain.ChildRanked(Erase(s));
      hide Step, Erase, Plain.MainStep, Plain.ChildStep, Plain.Inv, Plain.Rank, QuitIdle;
    }
  }

  lemma UnblockedMoves(s: State)
    ensures !MainBlocked(s) ==> CanMove(Step, ActorOf, s, Plain.Main)
    ensures !ChildBlocked(s) ==> CanMove(Step, ActorOf, s, Plain.Child)
  {
    hide TakesQuit, QuittersAfter, ArmsAfter, QuitAfter, Channels.Send, Channels.Recv, Collect, WorkReady;
  }

  lemma NeverStuck()
    ensures DeadlockFree(Step, Inv, Done, ActorOf, {Plain.Main, Plain.Child}) && Lasting(Step, Inv, Done)
  {
    forall s | Inv(s) && !Done(s)
      ensures exists who :: who in {Plain.Main, Plain.Child} && CanMove(Step, ActorOf, s, who)
    {
      Plain.SomeoneMoves(Erase(s));
      UnblockedMoves(s);
      hide Inv, Step, MainBlocked, ChildBlocked;
      if !MainBlocked(s) {
        assert CanMove(Step, ActorOf, s, Plain.Main);
      } else {
        assert CanMove(Step, ActorOf, s, Plain.Child);
      }
    }
    hide Inv;
  }

  /** Liveness: give both goroutines a turn often enough and the ping pong finishes. */
  lemma SelectFinishes(n: nat, blocks: seq<seq<Turn>>)
    requires forall b | b in blocks :: EveryoneActs(ActorOf, {Plain.Main, Plain.Child}, b)
    requires |blocks| > 12 * n + 16
    ensures Done(Run(Step, Init(n), Flatten(blocks)))
  {
    InitOk(n);
    StepsRanked();
    NeverStuck();
    hide Inv, Init, Rank, Step;
    FairRunsFinish(Step, Inv, Rank, Done, ActorOf, {Plain.Main, Plain.Child}, Init(n), blocks);
  }

  /** pingpong_body and pingpong_child, statement by statement. */
  class PingPong {
    const n: nat
    var c1: Chan
    var c2: Chan
    var quit: Chan
    var quitters: set<Who>
    var stop: bool
    var gone: nat
    var main: Plain.MainPc
    var round: nat
    var child: Plain.ChildPc
    var v: int
    ghost var saw: seq<bool>
    ghost var arms: seq<Arm>

    ghost function View(): State
      reads this
    {
      State(n, c1, c2, quit, quitters, stop, gone, main, round, child, v, saw, arms)
    }

    constructor (n: nat)
      ensures View() == Init(n)
    {
      this.n := n;
      c1, c2, quit, quitters, stop, gone := Make(0), Make(0), Make(0), {}, false, 0;
      main, round, child, v, saw, arms := Plain.NextRound(n, 0), 0, Plain.Take, 0, [], [];
    }

    /** The quit arm's receive; nothing is ever on that channel for it to take. */
    method ReceiveQuit() returns (got: Option<int>)
      modifies this`quit
      ensures quit == Channels.Recv(old(quit))
      ensures got == if |quit.got| > |old(quit.got)| then Some(quit.got[|old(quit.got)|]) else None
    {
      var before := |quit.got|;
      quit := Channels.Recv(quit);
      got := if |quit.got| > before then Some(quit.got[before]) else None;
    }

    method SelectSend(pick: Arm)
      requires main == Plain.Send
      modifies this
      ensures View() == MainStep(old(View()), Turn(Plain.Main, pick))
    {
      hide Channels.Send, Channels.Recv, Choose, CanSend, CanRecv;
      var arm := Choose(CanSend(c1), CanRecv(quit), pick);
      if arm == Some(Quit) {
        var _ := ReceiveQuit();
      } else {
        c1 := Channels.Send(c1, 1);
      }
      if arm == None {
        quitters := quitters + {Plain.Main};
        main := Plain.Sending;
      } else {
        arms := arms + [arm.value];
        main := Plain.Recv;
      }
    }

    method SelectRecv(pick: Arm)
      requires main == Plain.Recv
      modifies this
      ensures View() == MainStep(old(View()), Turn(Plain.Main, pick))
    {
      hide Channels.Send, Channels.Recv, Choose, CanSend, CanRecv;
      var arm := Choose(CanRecv(c2), CanRecv(quit), pick);
      if arm == Some(Quit) {
        var _ := ReceiveQuit();
      } else {
        c2 := Channels.Recv(c2);
      }
      if arm == None {
        quitters := quitters + {Plain.Main};
        main := Plain.Receiving;
      } else {
        arms, round := arms + [arm.value], round + 1;
        main := Plain.NextRound(n, round);
      }
    }

    method SelectTake(pick: Arm)
      requires child == Plain.Take
      modifies this
      ensures View() == ChildStep(old(View()), Turn(Plain.Child, pick))
    {
      hide Channels.Send, Channels.Recv, Choose, CanSend, CanRecv;
      var arm := Choose(CanRecv(c1), CanRecv(quit), pick);
      var before := c1;
      var got := None;
      if arm == Some(Quit) {
        got := ReceiveQuit();
      } else {
        c1 := Channels.Recv(c1);
      }
      if arm == None {
        quitters := quitters + {Plain.Child};
        child := Plain.Taking;
      } else {
        arms := arms + [arm.value];
        child := if arm == Some(Work) then Plain.ReadStop else Plain.Leaving;
      }
      v := if got.Some? then got.value else ReceivedInto(v, before, c1);
    }

    method SelectReply(pick: Arm)
      requires child == Plain.Reply
      modifies this
      ensures View() == ChildStep(old(View()), Turn(Plain.Child, pick))
    {
      hide Channels.Send, Channels.Recv, Choose, CanSend, CanRecv;
      var arm := Choose(CanSend(c2), CanRecv(quit), pick);
      if arm == Some(Quit) {
        var got := ReceiveQuit();
        v := if got.Some? then got.value else v;
      } else {
        c2 := Channels.Send(c2, v);
      }
      if arm == None {
        quitters := quitters + {Plain.Child};
        child := Plain.Replying;
      } else {
        arms := arms + [arm.value];
        child := if arm == Some(Work) then Plain.Take else Plain.Leaving;
      }
    }

    method MainTurn(pick: Arm)
      modifies this
      ensures View() == MainStep(old(View()), Turn(Plain.Main, pick))
    {
      hide Channels.Send, Channels.Recv, Collect, Chosen;
      match main {
        case Send =>
          SelectSend(pick);
        case Sending =>
          if c1.sender == None {
            quitters, arms := quitters - {Plain.Main}, arms + [Work];
            main := Plain.Recv;
          }
        case Recv =>
          SelectRecv(pick);
        case Receiving =>
          if !c2.receiver {
            c2 := Collect(c2);
            quitters, arms, round := quitters - {Plain.Main}, arms + [Work], round + 1;
            main := Plain.NextRound(n, round);
          }
        case SetStop =>
          stop := true;
          main := Plain.SendLast;
        case SendLast =>
          c1 := Channels.Send(c1, 0);
          main := if c1.sender.Some? then Plain.SendingLast else Plain.Spinning;
        case SendingLast =>
          if c1.sender == None {
            main := Plain.Spinning;
          }
        case Spinning =>
          if gone != 0 {
            main := Plain.Finished;
          }
        case Finished =>
      }
    }

    method ChildTurn(pick: Arm)
      modifies this
      ensures View() == ChildStep(old(View()), Turn(Plain.Child, pick))
    {
      hide Channels.Send, Channels.Recv, Collect, Chosen;
      match child {
        case Take =>
          SelectTake(pick);
        case Taking =>
          if !c1.receiver {
            var before := c1;
            c1 := Collect(c1);
            quitters, arms := quitters - {Plain.Child}, arms + [Work];
            v := ReceivedInto(v, before, c1);
            child := Plain.ReadStop;
          }
        case ReadStop =>
          saw := saw + [stop];
          child := if stop then Plain.Leaving else Plain.Reply;
        case Reply =>
          SelectReply(pick);
        case Replying =>
          if c2.sender == None {
            quitters, arms := quitters - {Plain.Child}, arms + [Work];
            child := Plain.Take;
          }
        case Leaving =>
          gone := gone + 1;
          child := Plain.Gone;
        case Gone =>
      }
    }

    /** Any schedule at all, from the start. */
    static method Play(n: nat, schedule: seq<Turn>) returns (p: PingPong)
      ensures p.View() == Run(Step, Init(n), schedule)
      ensures QuitIdle(p.View()) && Plain.Safe(Erase(p.View()))
    {
      p := new PingPong(n);
      for i := 0 to |schedule|
        invariant fresh(p) && p.View() == Run(Step, Init(n), schedule[..i])
      {
        RunSnoc(Step, Init(n), schedule[..i], schedule[i]);
        assert schedule[..i + 1] == schedule[..i] + [schedule[i]];
        if schedule[i].who == Plain.Main {
          p.MainTurn(schedule[i].pick);
        } else {
          p.ChildTurn(schedule[i].pick);
        }
      }
      assert schedule[..|schedule|] == schedule;
      SelectIsSafe(n, schedule);
    }
  }
}

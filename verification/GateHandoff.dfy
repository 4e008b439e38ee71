/** Two goroutines passing a turn through two one-waiter gates built on park and ready
    (bench/sched_bench.c). */
module GateHandoff {
  import opened Wrappers
  import opened Interleaving
  import opened Sequences

  datatype Who = Main | Child

  /** The fields of a gate, with the signals given and taken so far as history. */
  datatype GateState = GateState(lock: Option<Who>, waiter: Option<Who>, signalled: bool, sent: nat, taken: nat)

  /** The next thing a goroutine inside gate_wait or gate_signal does. What happens while the
      lock is held is one thing, since only the holder touches `waiter` and `signalled`. */
  datatype At =
    | WaitLock | WaitCheck | WaitUnlock | WaitPark | WaitCommit | Asleep
    | SignalLock | SignalCheck | SignalUnlock | SignalHandOff(w: Who) | SignalReady(w: Who)
    | Returned

  datatype Moved = Moved(at: At, g: GateState, parked: set<Who>)

  /** One step of a goroutine inside gate_wait or gate_signal. Parking puts the goroutine to
      sleep first and only then runs gate_unlock, which is the WaitCommit step. */
  function GateStep(me: Who, at: At, g: GateState, parked: set<Who>): Moved {
    match at
    case WaitLock | SignalLock =>
      if g.lock.Some? then Moved(at, g, parked)
      else Moved(if at == WaitLock then WaitCheck else SignalCheck, g.(lock := Some(me)), parked)
    case WaitCheck =>
      if g.signalled then Moved(WaitUnlock, g.(signalled := false), parked)
      else Moved(WaitPark, g.(waiter := Some(me)), parked)
    case WaitUnlock => Moved(Returned, g.(lock := None, taken := g.taken + 1), parked)
    case WaitPark => Moved(WaitCommit, g, parked + {me})
    case WaitCommit => Moved(Asleep, g.(lock := None), parked)
    case Asleep =>
      if me in parked then Moved(at, g, parked) else Moved(Returned, g.(taken := g.taken + 1), parked)
    case SignalCheck =>
      (match g.waiter
       case None => Moved(SignalUnlock, g.(signalled := true, sent := g.sent + 1), parked)
       case Some(w) => Moved(SignalHandOff(w), g.(waiter := None, sent := g.sent + 1), parked))
    case SignalUnlock => Moved(Returned, g.(lock := None), parked)
    case SignalHandOff(w) => Moved(SignalReady(w), g.(lock := None), parked)
    case SignalReady(w) => Moved(Returned, g, parked - {w})
    case Returned => Moved(at, g, parked)
  }

  predicate Signals(at: At) {
    at.SignalLock? || at.SignalCheck? || at.SignalUnlock? || at.SignalHandOff? || at.SignalReady?
  }

  /** The signal is not given yet. */
  predicate BeforeSignal(at: At) {
    at.SignalLock? || at.SignalCheck?
  }

  predicate Waits(at: At) {
    at.WaitLock? || at.WaitCheck? || at.WaitUnlock? || at.WaitPark? || at.WaitCommit? || at.Asleep?
  }

  /** The signal has picked its goroutine but not made it runnable yet. */
  predicate HandingOver(at: At) {
    at.SignalHandOff? || at.SignalReady?
  }

  /** A signal given whose wait has not returned. */
  predicate Pending(g: GateState, sAt: At, waiter: Who, wAt: At, parked: set<Who>) {
    g.signalled || HandingOver(sAt) || wAt.WaitUnlock? || (wAt.Asleep? && waiter !in parked)
  }

  /** What always holds of a gate that `signaller` signals and `waiter` waits on, when they are
      at `sAt` and `wAt` in it. */
  predicate GateOk(g: GateState, signaller: Who, sAt: At, waiter: Who, wAt: At, parked: set<Who>) {
    && signaller != waiter
    && (Signals(sAt) || sAt.Returned?) && (Waits(wAt) || wAt.Returned?)
    && (g.lock.Some? ==> g.lock.value == signaller || g.lock.value == waiter)
    && (g.lock == Some(signaller) <==> sAt.SignalCheck? || sAt.SignalUnlock? || sAt.SignalHandOff?)
    && (g.lock == Some(waiter) <==> wAt.WaitCheck? || wAt.WaitUnlock? || wAt.WaitPark? || wAt.WaitCommit?)
    && (HandingOver(sAt) ==> sAt.w == waiter && wAt.Asleep? && waiter in parked)
    && (waiter in parked ==> wAt.WaitCommit? || wAt.Asleep?)
    && (wAt.WaitCommit? ==> waiter in parked)
    && g.waiter == (if (wAt.WaitPark? || wAt.WaitCommit? || (wAt.Asleep? && waiter in parked)) && !HandingOver(sAt)
                    then Some(waiter) else None)
    && (g.signalled ==> wAt.Returned? || wAt.WaitLock? || wAt.WaitCheck?)
    && g.sent == g.taken + (if Pending(g, sAt, waiter, wAt, parked) then 1 else 0)
    && (BeforeSignal(sAt) ==> g.sent == g.taken)
  }

  lemma WaiterKeepsGate(g: GateState, signaller: Who, sAt: At, waiter: Who, wAt: At, parked: set<Who>)
    requires GateOk(g, signaller, sAt, waiter, wAt, parked) && Waits(wAt)
    ensures var m := GateStep(waiter, wAt, g, parked);
            && GateOk(m.g, signaller, sAt, waiter, m.at, m.parked)
            && (Waits(m.at) || m.at.Returned?) && m.g.sent == g.sent
            && m.g.taken == g.taken + (if m.at.Returned? then 1 else 0)
            && (signaller in m.parked <==> signaller in parked)
  {
  }

  lemma SignallerKeepsGate(g: GateState, signaller: Who, sAt: At, waiter: Who, wAt: At, parked: set<Who>)
    requires GateOk(g, signaller, sAt, waiter, wAt, parked) && Signals(sAt)
    ensures var m := GateStep(signaller, sAt, g, parked);
            && GateOk(m.g, signaller, m.at, waiter, wAt, m.parked)
            && m.g.taken == g.taken
            && (Signals(m.at) || m.at.Returned?)
            && m.g.sent == g.sent + (if BeforeSignal(sAt) && !BeforeSignal(m.at) then 1 else 0)
            && (BeforeSignal(m.at) ==> BeforeSignal(sAt))
            && (signaller in m.parked <==> signaller in parked)
  {
  }

  lemma GateCounts(g: GateState, signaller: Who, sAt: At, waiter: Who, wAt: At, parked: set<Who>)
    requires GateOk(g, signaller, sAt, waiter, wAt, parked)
    ensures g.taken <= g.sent <= g.taken + 1 && (BeforeSignal(sAt) ==> g.sent == g.taken)
  {
  }

  /** Starting a wait or a signal, and another gate's parking, leave the gate in order. */
  lemma GateUntouched(g: GateState, signaller: Who, sAt: At, waiter: Who, wAt: At, parked: set<Who>,
                      sNow: At, wNow: At, parkedNow: set<Who>)
    requires GateOk(g, signaller, sAt, waiter, wAt, parked)
    requires sNow == sAt || (sAt.Returned? && sNow.SignalLock? && g.sent == g.taken)
    requires wNow == wAt || (wAt.Returned? && wNow.WaitLock?)
    requires waiter in parked <==> waiter in parkedNow
    ensures GateOk(g, signaller, sNow, waiter, wNow, parkedNow)
  {
  }

  datatype MainPc = Signalling(at: At) | Waiting(at: At) | Stopping | Spinning | Finished
  datatype ChildPc = ChildWaiting(at: At) | Reading | ChildSignalling(at: At) | Leaving | Gone

  /** The shared variables and both goroutines' locals. `n` is the iteration count, `volley` the
      volleys hand_body has finished and `saw` what hand_child has read from the stop flag. */
  datatype State = State(
    n: nat, there: GateState, back: GateState, parked: set<Who>, stop: bool, gone: nat,
    main: MainPc, volley: nat, child: ChildPc, stopping: bool, saw: seq<bool>)

  function Init(n: nat): State {
    var gate := GateState(None, None, false, 0, 0);
    State(n, gate, gate, {}, false, 0, Signalling(SignalLock), 0, ChildWaiting(WaitLock), false, [])
  }

  /** What hand_body does after its `volley`-th volley: one warm-up volley, n timed ones, and one
      more after the stop flag is set. */
  function AfterVolley(n: nat, volley: nat): MainPc {
    if volley == n + 1 then Stopping else if volley == n + 2 then Spinning else Signalling(SignalLock)
  }

  function MainStep(s: State): State {
    match s.main
    case Signalling(at) =>
      var m := GateStep(Main, at, s.there, s.parked);
      s.(there := m.g, parked := m.parked,
         main := if m.at.Returned? then Waiting(WaitLock) else Signalling(m.at))
    case Waiting(at) =>
      var m := GateStep(Main, at, s.back, s.parked);
      if m.at.Returned? then
        s.(back := m.g, parked := m.parked, volley := s.volley + 1, main := AfterVolley(s.n, s.volley + 1))
      else s.(back := m.g, parked := m.parked, main := Waiting(m.at))
    case Stopping => s.(stop := true, main := Signalling(SignalLock))
    case Spinning => if s.gone == 0 then s else s.(main := Finished)
    case Finished => s
  }

  function ChildStep(s: State): State {
    match s.child
    case ChildWaiting(at) =>
      var m := GateStep(Child, at, s.there, s.parked);
      s.(there := m.g, parked := m.parked, child := if m.at.Returned? then Reading else ChildWaiting(m.at))
    case Reading => s.(stopping := s.stop, saw := s.saw + [s.stop], child := ChildSignalling(SignalLock))
    case ChildSignalling(at) =>
      var m := GateStep(Child, at, s.back, s.parked);
      s.(back := m.g, parked := m.parked,
         child := if !m.at.Returned? then ChildSignalling(m.at)
                  else if s.stopping then Leaving else ChildWaiting(WaitLock))
    case Leaving => s.(gone := s.gone + 1, child := Gone)
    case Gone => s
  }

  function Step(s: State, who: Who): State {
    if who == Main then MainStep(s) else ChildStep(s)
  }

  predicate Done(s: State) { s.main.Finished? }

  function ThereSignal(main: MainPc): At { if main.Signalling? then main.at else Returned }
  function BackWait(main: MainPc): At { if main.Waiting? then main.at else Returned }
  function ThereWait(child: ChildPc): At { if child.ChildWaiting? then child.at else Returned }
  function BackSignal(child: ChildPc): At { if child.ChildSignalling? then child.at else Returned }

  /** What every step keeps. */
  predicate Inv(s: State) {
    && GateOk(s.there, Main, ThereSignal(s.main), Child, ThereWait(s.child), s.parked)
    && GateOk(s.back, Child, BackSignal(s.child), Main, BackWait(s.main), s.parked)
    && MainOk(s) && ChildOk(s)
  }

  predicate MainOk(s: State) {
    && (s.main.Signalling? ==> Signals(s.main.at)) && (s.main.Waiting? ==> Waits(s.main.at))
    && s.back.taken == s.volley
    && s.there.sent == s.volley + (if s.main.Waiting? || (s.main.Signalling? && !BeforeSignal(s.main.at)) then 1 else 0)
    && (s.main.Signalling? || s.main.Waiting? ==> s.volley <= s.n + 1)
    && (s.main.Stopping? ==> s.volley == s.n + 1)
    && (s.main.Spinning? || s.main.Finished? ==> s.volley == s.n + 2)
    && (s.stop <==> s.volley > s.n && !s.main.Stopping?)
    && (s.main.Finished? ==> s.child.Gone?)
  }

  predicate ChildOk(s: State) {
    && (s.child.ChildSignalling? ==> Signals(s.child.at)) && (s.child.ChildWaiting? ==> Waits(s.child.at))
    && s.there.taken == |s.saw| + (if s.child.Reading? then 1 else 0)
    && |s.saw| == s.back.sent + (if s.child.ChildSignalling? && BeforeSignal(s.child.at) then 1 else 0)
    && |s.saw| <= s.n + 2
    && (forall i :: 0 <= i < |s.saw| ==> (s.saw[i] <==> i == s.n + 1))
    && (s.child.ChildSignalling? || s.child.Leaving? ==> |s.saw| > 0 && s.stopping == s.saw[|s.saw| - 1])
    && (s.child.ChildWaiting? || s.child.Reading? ==> |s.saw| <= s.n + 1)
    && (s.child.Leaving? || s.child.Gone? ==> |s.saw| == s.n + 2)
    && s.gone == (if s.child.Gone? then 1 else 0)
  }

  lemma MainKeepsInv(s: State)
    requires Inv(s)
    ensures Inv(MainStep(s))
  {
    hide GateOk, GateStep;
    var t := MainStep(s);
    GateCounts(s.there, Main, ThereSignal(s.main), Child, ThereWait(s.child), s.parked);
    GateCounts(s.back, Child, BackSignal(s.child), Main, BackWait(s.main), s.parked);
    if s.main.Signalling? {
      SignallerKeepsGate(s.there, Main, s.main.at, Child, ThereWait(s.child), s.parked);
    } else if s.main.Waiting? {
      WaiterKeepsGate(s.back, Child, BackSignal(s.child), Main, s.main.at, s.parked);
      GateCounts(t.back, Child, BackSignal(s.child), Main, GateStep(Main, s.main.at, s.back, s.parked).at, t.parked);
    }
    if !s.main.Signalling? {
      GateUntouched(s.there, Main, ThereSignal(s.main), Child, ThereWait(s.child), s.parked,
                    ThereSignal(t.main), ThereWait(t.child), t.parked);
    }
    if !s.main.Waiting? {
      GateUntouched(s.back, Child, BackSignal(s.child), Main, BackWait(s.main), s.parked,
                    BackSignal(t.child), BackWait(t.main), t.parked);
    }
  }

  lemma ChildKeepsInv(s: State)
    requires Inv(s)
    ensures Inv(ChildStep(s))
  {
    hide GateOk, GateStep;
    var t := ChildStep(s);
    GateCounts(s.there, Main, ThereSignal(s.main), Child, ThereWait(s.child), s.parked);
    GateCounts(s.back, Child, BackSignal(s.child), Main, BackWait(s.main), s.parked);
    if s.child.ChildSignalling? {
      SignallerKeepsGate(s.back, Child, s.child.at, Main, BackWait(s.main), s.parked);
    } else if s.child.ChildWaiting? {
      WaiterKeepsGate(s.there, Main, ThereSignal(s.main), Child, s.child.at, s.parked);
      GateCounts(t.there, Main, ThereSignal(s.main), Child, GateStep(Child, s.child.at, s.there, s.parked).at, t.parked);
    }
    if !s.child.ChildWaiting? {
      GateUntouched(s.there, Main, ThereSignal(s.main), Child, ThereWait(s.child), s.parked,
                    ThereSignal(t.main), ThereWait(t.child), t.parked);
    }
    if !s.child.ChildSignalling? {
      GateUntouched(s.back, Child, BackSignal(s.child), Main, BackWait(s.main), s.parked,
                    BackSignal(t.child), BackWait(t.main), t.parked);
    }
  }

  /** Nothing goes wrong at a gate: nobody waits while a signal is stored, storing a signal or a
      waiter overwrites none, and the goroutine made ready is asleep on this very gate with its
      lock already given back. The fields are looked at under the lock, a waiter holds it until it
      has parked, and ready is called without it. */
  predicate GateSafe(g: GateState, signaller: Who, sAt: At, waiter: Who, wAt: At, parked: set<Who>) {
    && !(g.signalled && g.waiter.Some?)
    && (sAt.SignalCheck? && g.waiter.None? ==> !g.signalled)
    && (wAt.WaitCheck? && !g.signalled ==> g.waiter.None?)
    && (sAt.SignalReady? ==> sAt.w == waiter && waiter in parked && wAt.Asleep? && g.lock != Some(waiter))
    && (sAt.SignalReady? ==> g.lock != Some(signaller))
    && (wAt.WaitCommit? ==> waiter in parked && g.lock == Some(waiter))
    && (sAt.SignalCheck? ==> g.lock == Some(signaller)) && (wAt.WaitCheck? ==> g.lock == Some(waiter))
  }

  /** The safety of a state: both gates are safe, a signal is out exactly when one more was given
      than taken, the child is at most one volley from the main goroutine and it reads the stop
      flag set on volley n + 2 and on no other. */
  predicate Safe(s: State) {
    && GateSafe(s.there, Main, ThereSignal(s.main), Child, ThereWait(s.child), s.parked)
    && GateSafe(s.back, Child, BackSignal(s.child), Main, BackWait(s.main), s.parked)
    && s.there.taken <= s.there.sent <= s.there.taken + 1
    && s.back.taken <= s.back.sent <= s.back.taken + 1
    && s.volley <= s.there.sent <= s.volley + 1 && s.back.sent <= |s.saw| <= s.there.sent
    && |s.saw| <= s.n + 2
    && (forall i :: 0 <= i < |s.saw| ==> (s.saw[i] <==> i == s.n + 1))
  }

  /** How hand_body leaves things. */
  predicate Clean(s: State) {
    && s.there == GateState(None, None, false, s.n + 2, s.n + 2)
    && s.back == GateState(None, None, false, s.n + 2, s.n + 2)
    && s.parked == {} && s.stop && s.gone == 1 && s.child.Gone? && s.volley == s.n + 2
    && s.saw == seq(s.n + 1, _ => false) + [true]
  }

  lemma DoneIsClean(s: State)
    requires Inv(s) && Done(s)
    ensures Clean(s)
  {
    assert Main !in s.parked && Child !in s.parked;
    assert s.parked == {} by {
      forall w ensures w !in s.parked { assert w == Main || w == Child; }
    }
  }

  function AtRank(at: At): nat {
    match at
    case WaitLock => 5
    case WaitCheck | SignalLock => 4
    case WaitPark | SignalCheck => 3
    case WaitCommit | SignalHandOff(_) => 2
    case WaitUnlock | Asleep | SignalUnlock | SignalReady(_) => 1
    case Returned => 0
  }

  lemma GateStepRanked(me: Who, at: At, g: GateState, parked: set<Who>)
    ensures var m := GateStep(me, at, g, parked); m == Moved(at, g, parked) || AtRank(m.at) < AtRank(at)
  {
  }

  function MainRank(n: nat, volley: nat, main: MainPc): int {
    13 * (n + 2 - volley)
    + match main
      case Signalling(at) => 7 + AtRank(at)
      case Waiting(at) => 1 + AtRank(at)
      case Stopping => 12
      case Spinning => 1
      case Finished => 0
  }

  function ChildRank(n: nat, saw: nat, child: ChildPc): int {
    14 * (n + 2 - saw)
    + match child
      case ChildSignalling(at) => 7 + AtRank(at)
      case ChildWaiting(at) => 1 + AtRank(at)
      case Reading | Leaving => 1
      case Gone => 0
  }

  /** An upper bound on the turns that can still move the system. */
  function Rank(s: State): int {
    MainRank(s.n, s.volley, s.main) + ChildRank(s.n, |s.saw|, s.child)
  }

  lemma MainRanked(s: State)
    requires Inv(s)
    ensures MainStep(s) == s || Rank(MainStep(s)) < Rank(s)
  {
    hide GateOk, GateStep;
    if s.main.Signalling? {
      GateStepRanked(Main, s.main.at, s.there, s.parked);
    } else if s.main.Waiting? {
      GateStepRanked(Main, s.main.at, s.back, s.parked);
    }
  }

  lemma ChildRanked(s: State)
    requires Inv(s)
    ensures ChildStep(s) == s || Rank(ChildStep(s)) < Rank(s)
  {
    hide GateOk, GateStep;
    if s.child.ChildWaiting? {
      GateStepRanked(Child, s.child.at, s.there, s.parked);
    } else if s.child.ChildSignalling? {
      GateStepRanked(Child, s.child.at, s.back, s.parked);
    }
  }

  lemma RankNatural(s: State)
    requires Inv(s)
    ensures 0 <= Rank(s)
  {
    hide GateOk;
  }

  lemma StepsRanked()
    ensures Inductive(Step, Inv) && Ranked(Step, Inv, Rank)
  {
    forall s, who | Inv(s)
      ensures Inv(Step(s, who)) && (Step(s, who) == s || Rank(Step(s, who)) < Rank(s)) && 0 <= Rank(s)
    {
      MainKeepsInv(s);
      ChildKeepsInv(s);
      MainRanked(s);
      ChildRanked(s);
      RankNatural(s);
      hide Inv, Rank;
    }
  }

  lemma InitOk(n: nat)
    ensures Inv(Init(n)) && Rank(Init(n)) == 27 * n + 71
  {
  }

  function ActorOf(who: Who): Who { who }

  /** One of the two goroutines can always move until hand_body is finished: if both were asleep,
      each gate's signals would all have been taken, and then the volley counts would disagree. */
  lemma SomeoneMoves(s: State)
    requires Inv(s) && !Done(s)
    ensures exists who :: who in {Main, Child} && CanMove(Step, ActorOf, s, who)
  {
    assert MainStep(s) != s || ChildStep(s) != s;
    if MainStep(s) != s {
      assert CanMove(Step, ActorOf, s, Main);
    } else {
      assert CanMove(Step, ActorOf, s, Child);
    }
  }

  lemma NeverStuck()
    ensures DeadlockFree(Step, Inv, Done, ActorOf, {Main, Child}) && Lasting(Step, Inv, Done)
  {
    forall s | Inv(s) && !Done(s)
      ensures exists who :: who in {Main, Child} && CanMove(Step, ActorOf, s, who)
    {
      SomeoneMoves(s);
    }
  }

  lemma InvSafe(s: State)
    requires Inv(s)
    ensures Safe(s)
  {
  }

  /** Safety over whole runs: whatever the interleaving, every state is safe, an unfinished one
      has a goroutine that can move, a finished one is clean, and no schedule moves the system
      more often than a bound linear in n. */
  lemma HandoffIsSafe(n: nat, schedule: seq<Who>)
    ensures var s := Run(Step, Init(n), schedule);
            && s.n == n && Safe(s) && Inv(s)
            && (Done(s) ==> Clean(s))
            && (!Done(s) ==> Step(s, Main) != s || Step(s, Child) != s)
    ensures Moves(Step, Init(n), schedule) <= 27 * n + 71
  {
    var s := Run(Step, Init(n), schedule);
    var sameN := (x: State) => x.n == n;
    assert Inductive(Step, sameN);
    InitOk(n);
    StepsRanked();
    RunKeeps(Step, sameN, Init(n), schedule);
    hide Inv, Init, Rank, MainStep, ChildStep, Safe;
    RunKeeps(Step, Inv, Init(n), schedule);
    MovesBounded(Step, Inv, Rank, Init(n), schedule);
    InvSafe(s);
    if Done(s) { DoneIsClean(s); } else { SomeoneMoves(s); }
  }

  /** Liveness: give both goroutines a turn often enough and the handoff finishes. */
  lemma HandoffFinishes(n: nat, blocks: seq<seq<Who>>)
    requires forall b | b in blocks :: EveryoneActs(ActorOf, {Main, Child}, b)
    requires |blocks| > 27 * n + 71
    ensures Done(Run(Step, Init(n), Flatten(blocks)))
  {
    InitOk(n);
    StepsRanked();
    NeverStuck();
    hide Inv, Init, Rank, MainStep, ChildStep;
    FairRunsFinish(Step, Inv, Rank, Done, ActorOf, {Main, Child}, Init(n), blocks);
  }

  /** The gate itself: gate_wait and gate_signal update its fields in place, one step at a time. */
  class Gate {
    var lock: Option<Who>
    var waiter: Option<Who>
    var signalled: bool
    ghost var sent: nat
    ghost var taken: nat

    ghost function View(): GateState
      reads this
    {
      GateState(lock, waiter, signalled, sent, taken)
    }

    constructor ()
      ensures View() == GateState(None, None, false, 0, 0)
    {
      lock, waiter, signalled := None, None, false;
      sent, taken := 0, 0;
    }

    method Wait(me: Who, at: At, parked: set<Who>) returns (next: At, parkedNow: set<Who>)
      requires Waits(at)
      modifies this
      ensures Moved(next, View(), parkedNow) == GateStep(me, at, old(View()), parked)
    {
      next, parkedNow := at, parked;
      match at {
        case WaitLock =>
          if lock == None {
            lock := Some(me);
            next := WaitCheck;
          }
        case WaitCheck =>
          if signalled {
            signalled := false;
            next := WaitUnlock;
          } else {
            waiter := Some(me);
            next := WaitPark;
          }
        case WaitUnlock =>
          lock, taken := None, taken + 1;
          next := Returned;
        case WaitPark =>
          parkedNow := parked + {me};
          next := WaitCommit;
        case WaitCommit =>
          lock := None;
          next := Asleep;
        case Asleep =>
          if me !in parked {
            taken := taken + 1;
            next := Returned;
          }
      }
    }

    method Signal(me: Who, at: At, parked: set<Who>) returns (next: At, parkedNow: set<Who>)
      requires Signals(at)
      modifies this
      ensures Moved(next, View(), parkedNow) == GateStep(me, at, old(View()), parked)
    {
      next, parkedNow := at, parked;
      match at {
        case SignalLock =>
          if lock == None {
            lock := Some(me);
            next := SignalCheck;
          }
        case SignalCheck =>
          var w := waiter;
          sent := sent + 1;
          if w == None {
            signalled := true;
            next := SignalUnlock;
          } else {
            waiter := None;
            next := SignalHandOff(w.value);
          }
        case SignalUnlock =>
          lock := None;
          next := Returned;
        case SignalHandOff(w) =>
          lock := None;
          next := SignalReady(w);
        case SignalReady(w) =>
          parkedNow := parked - {w};
          next := Returned;
      }
    }
  }

  /** hand_body and hand_child over the two gates and the two flags they share. */
  class Handoff {
    const n: nat
    const there: Gate
    const back: Gate
    var parked: set<Who>
    var stop: bool
    var gone: nat
    var main: MainPc
    var volley: nat
    var child: ChildPc
    var stopping: bool
    ghost var saw: seq<bool>

    ghost predicate Valid()
      reads this
    {
      && there != back
      && (main.Signalling? ==> Signals(main.at)) && (main.Waiting? ==> Waits(main.at))
      && (child.ChildSignalling? ==> Signals(child.at)) && (child.ChildWaiting? ==> Waits(child.at))
    }

    ghost function View(): State
      reads this, there, back
    {
      State(n, there.View(), back.View(), parked, stop, gone, main, volley, child, stopping, saw)
    }

    constructor (n: nat)
      ensures Valid() && fresh(there) && fresh(back) && View() == Init(n)
    {
      this.n := n;
      there := new Gate();
      back := new Gate();
      parked, stop, gone := {}, false, 0;
      main, volley := Signalling(SignalLock), 0;
      child, stopping, saw := ChildWaiting(WaitLock), false, [];
    }

    method MainTurn()
      requires Valid()
      modifies this, there, back
      ensures Valid() && View() == MainStep(old(View()))
    {
      match main {
        case Signalling(at) =>
          var next;
          next, parked := there.Signal(Main, at, parked);
          main := if next.Returned? then Waiting(WaitLock) else Signalling(next);
        case Waiting(at) =>
          var next;
          next, parked := back.Wait(Main, at, parked);
          if next.Returned? {
            volley := volley + 1;
            main := AfterVolley(n, volley);
          } else {
            main := Waiting(next);
          }
        case Stopping =>
          stop := true;
          main := Signalling(SignalLock);
        case Spinning =>
          if gone != 0 {
            main := Finished;
          }
        case Finished =>
      }
    }

    method ChildTurn()
      requires Valid()
      modifies this, there, back
      ensures Valid() && View() == ChildStep(old(View()))
    {
      match child {
        case ChildWaiting(at) =>
          var next;
          next, parked := there.Wait(Child, at, parked);
          child := if next.Returned? then Reading else ChildWaiting(next);
        case Reading =>
          stopping := stop;
          saw := saw + [stop];
          child := ChildSignalling(SignalLock);
        case ChildSignalling(at) =>
          var next;
          next, parked := back.Signal(Child, at, parked);
          child := if !next.Returned? then ChildSignalling(next)
                   else if stopping then Leaving else ChildWaiting(WaitLock);
        case Leaving =>
          gone := gone + 1;
          child := Gone;
        case Gone =>
      }
    }

    /** Any schedule at all, from the start. */
    static method Play(n: nat, schedule: seq<Who>) returns (h: Handoff)
      ensures h.View() == Run(Step, Init(n), schedule) && Safe(h.View())
    {
      hide Inv, Safe, Clean, MainStep, ChildStep;
      h := new Handoff(n);
      for i := 0 to |schedule|
        invariant h.Valid() && fresh(h) && fresh(h.there) && fresh(h.back)
        invariant h.View() == Run(Step, Init(n), schedule[..i])
      {
        RunSnoc(Step, Init(n), schedule[..i], schedule[i]);
        assert schedule[..i + 1] == schedule[..i] + [schedule[i]];
        if schedule[i] == Main {
          h.MainTurn();
        } else {
          h.ChildTurn();
        }
      }
      assert schedule[..|schedule|] == schedule;
      HandoffIsSafe(n, schedule);
    }
  }
}

/** Two goroutines taking turns through one condition variable, with every signal given after
    the lock is released (bench/cond_bench.c). */
module CondPingPong {
  import opened Wrappers
  import opened Interleaving
  import opened Sequences

  datatype Who = Main | Partner

  function Other(w: Who): Who {
    if w == Main then Partner else Main
  }

  /** A turn of one goroutine. If its step is a signal, `pick` says which sleeper the signal
      prefers, so every way of choosing among the sleepers is covered. */
  datatype Turn = Turn(who: Who, pick: Who)

  /** Where each goroutine is. Asleep is inside sync_cond_wait with the lock given back, and a
      woken goroutine has to take the lock again before it looks at the turn. */
  datatype MainPc =
    | PassLock | PassTurn | PassUnlock | PassSignal
    | AwaitLock | AwaitCheck | MainAsleep | MainRelock | AwaitUnlock
    | QuitLock | QuitTurn | QuitUnlock | QuitBroadcast | Spinning | Finished
  datatype PartnerPc =
    | TakeLock | TakeCheck | PartnerAsleep | PartnerRelock | TakeTurn | TakeUnlock | TakeSignal | Leaving | Gone

  /** The shared variables and both goroutines' locals. `round` counts the passes of pp_body's
      loop, `saw` is what pp_partner has read from the stop flag, and `writes` says who has
      written the turn, in order. */
  datatype State = State(
    n: nat, lock: Option<Who>, sleepers: set<Who>, turn: int, stop: bool, done: bool,
    main: MainPc, round: nat, partner: PartnerPc, stopping: bool, saw: seq<bool>, writes: seq<Who>)

  function Init(n: nat): State {
    State(n, None, {}, 0, false, false, if n == 0 then QuitLock else PassLock, 0, TakeLock, false, [], [])
  }

  /** A signal wakes one sleeper if there is one, and has no effect otherwise. */
  function Signal(sleepers: set<Who>, pick: Who): set<Who> {
    if pick in sleepers then sleepers - {pick} else sleepers - {Other(pick)}
  }

  /** Exactly one of the sleepers is woken if there is one, and `pick` if it is among them. */
  lemma SignalWakesOne(sleepers: set<Who>, pick: Who)
    ensures sleepers == {} ==> Signal(sleepers, pick) == {}
    ensures sleepers != {} ==>
              exists w :: w in sleepers && Signal(sleepers, pick) == sleepers - {w} && (pick in sleepers ==> w == pick)
  {
    if sleepers != {} {
      var w :| w in sleepers && (pick in sleepers ==> w == pick);
      assert w == pick || w == Other(pick);
    }
  }

  predicate MainBlocked(s: State) {
    match s.main
    case PassLock | AwaitLock | MainRelock | QuitLock => s.lock.Some?
    case MainAsleep => Main in s.sleepers
    case Spinning => !s.done
    case Finished => true
    case _ => false
  }

  function MainNext(s: State): MainPc {
    match s.main
    case PassLock => PassTurn
    case PassTurn => PassUnlock
    case PassUnlock => PassSignal
    case PassSignal => AwaitLock
    case AwaitLock => AwaitCheck
    case AwaitCheck => if s.turn != 0 then MainAsleep else AwaitUnlock
    case MainAsleep => MainRelock
    case MainRelock => AwaitCheck
    case AwaitUnlock => if s.round + 1 < s.n then PassLock else QuitLock
    case QuitLock => QuitTurn
    case QuitTurn => QuitUnlock
    case QuitUnlock => QuitBroadcast
    case QuitBroadcast => Spinning
    case Spinning | Finished => Finished
  }

  function MainLock(s: State): Option<Who> {
    match s.main
    case PassLock | AwaitLock | MainRelock | QuitLock => Some(Main)
    case PassUnlock | AwaitUnlock | QuitUnlock => None
    case AwaitCheck => if s.turn != 0 then None else s.lock
    case _ => s.lock
  }

  function MainSleepers(s: State, pick: Who): set<Who> {
    match s.main
    case PassSignal => Signal(s.sleepers, pick)
    case QuitBroadcast => {}
    case AwaitCheck => if s.turn != 0 then s.sleepers + {Main} else s.sleepers
    case _ => s.sleepers
  }

  predicate Passes(main: MainPc) { main.PassTurn? || main.QuitTurn? }

  /** What each variable is after the main goroutine's turn. */
  function MainStep(s: State, pick: Who): State {
    if MainBlocked(s) then s
    else State(
      s.n, MainLock(s), MainSleepers(s, pick),
      if Passes(s.main) then 1 else s.turn,
      s.stop || s.main.QuitTurn?,
      s.done,
      MainNext(s),
      if s.main.AwaitUnlock? then s.round + 1 else s.round,
      s.partner, s.stopping, s.saw,
      if Passes(s.main) then s.writes + [Main] else s.writes)
  }

  predicate PartnerBlocked(s: State) {
    match s.partner
    case TakeLock | PartnerRelock => s.lock.Some?
    case PartnerAsleep => Partner in s.sleepers
    case Gone => true
    case _ => false
  }

  function PartnerNext(s: State): PartnerPc {
    match s.partner
    case TakeLock => TakeCheck
    case TakeCheck => if s.turn != 1 then PartnerAsleep else TakeTurn
    case PartnerAsleep => PartnerRelock
    case PartnerRelock => TakeCheck
    case TakeTurn => TakeUnlock
    case TakeUnlock => TakeSignal
    case TakeSignal => if s.stopping then Leaving else TakeLock
    case Leaving | Gone => Gone
  }

  function PartnerLock(s: State): Option<Who> {
    match s.partner
    case TakeLock | PartnerRelock => Some(Partner)
    case TakeCheck => if s.turn != 1 then None else s.lock
    case TakeUnlock => None
    case _ => s.lock
  }

  function PartnerSleepers(s: State, pick: Who): set<Who> {
    match s.partner
    case TakeCheck => if s.turn != 1 then s.sleepers + {Partner} else s.sleepers
    case TakeSignal => Signal(s.sleepers, pick)
    case _ => s.sleepers
  }

  /** What each variable is after the partner's turn. */
  function PartnerStep(s: State, pick: Who): State {
    if PartnerBlocked(s) then s
    else State(
      s.n, PartnerLock(s), PartnerSleepers(s, pick),
      if s.partner.TakeTurn? then 0 else s.turn,
      s.stop,
      s.done || s.partner.Leaving?,
      s.main, s.round, PartnerNext(s),
      if s.partner.TakeTurn? then s.stop else s.stopping,
      if s.partner.TakeTurn? then s.saw + [s.stop] else s.saw,
      if s.partner.TakeTurn? then s.writes + [Partner] else s.writes)
  }

  function Step(s: State, t: Turn): State {
    if t.who == Main then MainStep(s, t.pick) else PartnerStep(s, t.pick)
  }

  function ActorOf(t: Turn): Who { t.who }

  predicate Done(s: State) { s.main.Finished? }

  predicate MainHolds(main: MainPc) {
    main.PassTurn? || main.PassUnlock? || main.AwaitCheck? || main.AwaitUnlock? || main.QuitTurn? || main.QuitUnlock?
  }

  predicate PartnerHolds(partner: PartnerPc) {
    partner.TakeCheck? || partner.TakeTurn? || partner.TakeUnlock?
  }

  /** The main goroutine has yet to wake whoever waits for turn 1. */
  predicate MainWillWake(main: MainPc) {
    main.PassUnlock? || main.PassSignal? || main.QuitUnlock? || main.QuitBroadcast?
  }

  /** The partner has yet to wake whoever waits for turn 0. */
  predicate PartnerWillWake(partner: PartnerPc) {
    partner.TakeUnlock? || partner.TakeSignal?
  }

  predicate LockOk(s: State) {
    && (s.lock == None || s.lock == Some(Main) || s.lock == Some(Partner))
    && (s.lock == Some(Main) <==> MainHolds(s.main))
    && (s.lock == Some(Partner) <==> PartnerHolds(s.partner))
    && (Main in s.sleepers ==> s.main.MainAsleep?)
    && (Partner in s.sleepers ==> s.partner.PartnerAsleep?)
  }

  /** No wakeup is lost: a goroutine asleep although its turn has come is about to be woken. */
  predicate NoLostWakeup(s: State) {
    && (Partner in s.sleepers && s.turn == 1 ==> MainWillWake(s.main))
    && (Main in s.sleepers && s.turn == 0 ==> PartnerWillWake(s.partner))
  }

  /** How often the main goroutine has passed the turn. */
  function Passed(s: State): nat {
    match s.main
    case PassLock | PassTurn | QuitLock | QuitTurn => s.round
    case _ => s.round + 1
  }

  predicate TurnOk(s: State) {
    && s.turn == Passed(s) - |s.saw| && 0 <= s.turn <= 1
    && (s.main.PassLock? || s.main.PassTurn? || s.main.QuitLock? || s.main.QuitTurn? || s.main.AwaitUnlock? ==> s.turn == 0)
    && (s.partner.TakeTurn? ==> s.turn == 1)
  }

  /** The turns strictly alternate. */
  predicate Alternates(s: State) {
    && |s.writes| == Passed(s) + |s.saw|
    && (forall i :: 0 <= i < |s.writes| ==> s.writes[i] == if i % 2 == 0 then Main else Partner)
  }

  predicate Quitting(main: MainPc) {
    main.QuitLock? || main.QuitTurn? || main.QuitUnlock? || main.QuitBroadcast? || main.Spinning? || main.Finished?
  }

  predicate RoundsOk(s: State) {
    && s.round <= s.n && (s.round == s.n <==> Quitting(s.main))
    && (s.stop <==> s.main.QuitUnlock? || s.main.QuitBroadcast? || s.main.Spinning? || s.main.Finished?)
    && |s.saw| <= s.n + 1 && (forall i :: 0 <= i < |s.saw| ==> (s.saw[i] <==> i == s.n))
    && (PartnerWillWake(s.partner) ==> |s.saw| > 0 && s.stopping == s.saw[|s.saw| - 1])
    && (s.partner.Leaving? || s.partner.Gone? ==> |s.saw| == s.n + 1)
    && (!PartnerWillWake(s.partner) && !s.partner.Leaving? && !s.partner.Gone? ==> |s.saw| <= s.n)
    && (s.done <==> s.partner.Gone?)
    && (s.main.Finished? ==> s.done)
  }

  /** What every step keeps. */
  predicate Inv(s: State) {
    LockOk(s) && NoLostWakeup(s) && TurnOk(s) && Alternates(s) && RoundsOk(s)
  }

  lemma MainKeepsLock(s: State, pick: Who)
    requires LockOk(s)
    ensures LockOk(MainStep(s, pick))
  {
  }

  lemma PartnerKeepsLock(s: State, pick: Who)
    requires LockOk(s)
    ensures LockOk(PartnerStep(s, pick))
  {
  }

  /** A goroutine only falls asleep on the wrong turn, only a turn it waits for can strand it, and
      whoever writes that turn still has its signal to give. A stale signal changes nothing. */
  lemma MainKeepsWakeups(s: State, pick: Who)
    requires LockOk(s) && NoLostWakeup(s)
    ensures NoLostWakeup(MainStep(s, pick))
  {
  }

  lemma PartnerKeepsWakeups(s: State, pick: Who)
    requires LockOk(s) && NoLostWakeup(s)
    ensures NoLostWakeup(PartnerStep(s, pick))
  {
  }

  lemma MainKeepsTurn(s: State, pick: Who)
    requires LockOk(s) && TurnOk(s)
    ensures TurnOk(MainStep(s, pick))
  {
  }

  lemma PartnerKeepsTurn(s: State, pick: Who)
    requires LockOk(s) && TurnOk(s)
    ensures TurnOk(PartnerStep(s, pick))
  {
  }

  lemma MainKeepsWrites(s: State, pick: Who)
    requires TurnOk(s) && Alternates(s)
    ensures Alternates(MainStep(s, pick))
  {
  }

  lemma PartnerKeepsWrites(s: State, pick: Who)
    requires TurnOk(s) && Alternates(s)
    ensures Alternates(PartnerStep(s, pick))
  {
  }

  lemma MainKeepsRounds(s: State, pick: Who)
    requires RoundsOk(s)
    ensures RoundsOk(MainStep(s, pick))
  {
  }

  lemma PartnerKeepsRounds(s: State, pick: Who)
    requires TurnOk(s) && RoundsOk(s)
    ensures RoundsOk(PartnerStep(s, pick))
  {
  }

  lemma StepKeepsInv(s: State, t: Turn)
    requires Inv(s)
    ensures Inv(Step(s, t))
  {
    if t.who == Main {
      MainKeepsLock(s, t.pick);
      MainKeepsWakeups(s, t.pick);
      MainKeepsTurn(s, t.pick);
      MainKeepsWrites(s, t.pick);
      MainKeepsRounds(s, t.pick);
    } else {
      PartnerKeepsLock(s, t.pick);
      PartnerKeepsWakeups(s, t.pick);
      PartnerKeepsTurn(s, t.pick);
      PartnerKeepsWrites(s, t.pick);
      PartnerKeepsRounds(s, t.pick);
    }
    hide LockOk, NoLostWakeup, TurnOk, Alternates, RoundsOk, MainStep, PartnerStep;
  }

  /** A pass that ends up asleep again is paid for by the signal that woke the sleeper. */
  function MainRank(main: MainPc): nat {
    match main
    case PassLock | QuitLock => 15
    case PassTurn | QuitTurn => 14
    case PassUnlock | QuitUnlock => 13
    case PassSignal | QuitBroadcast => 12
    case AwaitLock => 8
    case MainRelock => 7
    case AwaitCheck => 6
    case MainAsleep => 5
    case AwaitUnlock => 2
    case Spinning => 1
    case Finished => 0
  }

  function PartnerRank(partner: PartnerPc): nat {
    match partner
    case TakeLock => 8
    case PartnerRelock => 7
    case TakeCheck => 6
    case PartnerAsleep => 5
    case TakeTurn => 4
    case TakeUnlock => 15
    case TakeSignal => 14
    case Leaving => 1
    case Gone => 0
  }

  /** An upper bound on the turns that can still move the system. */
  function Rank(s: State): int {
    16 * (s.n - s.round) + MainRank(s.main) + (if s.main.MainAsleep? && Main !in s.sleepers then 3 else 0)
    + 16 * (s.n + 1 - |s.saw|) + PartnerRank(s.partner) + (if s.partner.PartnerAsleep? && Partner !in s.sleepers then 3 else 0)
  }

  lemma MainRanked(s: State, pick: Who)
    requires Inv(s)
    ensures MainStep(s, pick) == s || Rank(MainStep(s, pick)) < Rank(s)
  {
    hide NoLostWakeup, TurnOk, Alternates, RoundsOk;
  }

  lemma PartnerRanked(s: State, pick: Who)
    requires Inv(s)
    ensures PartnerStep(s, pick) == s || Rank(PartnerStep(s, pick)) < Rank(s)
  {
    hide NoLostWakeup, TurnOk, Alternates, RoundsOk;
  }

  lemma RankNatural(s: State)
    requires Inv(s)
    ensures 0 <= Rank(s)
  {
    hide LockOk, NoLostWakeup, TurnOk, Alternates;
  }

  lemma StepsRanked()
    ensures Inductive(Step, Inv) && Ranked(Step, Inv, Rank)
  {
    forall s, t | Inv(s)
      ensures Inv(Step(s, t)) && (Step(s, t) == s || Rank(Step(s, t)) < Rank(s)) && 0 <= Rank(s)
    {
      StepKeepsInv(s, t);
      MainRanked(s, t.pick);
      PartnerRanked(s, t.pick);
      RankNatural(s);
      hide Inv, Rank;
    }
  }

  /** If both goroutines were asleep then, whoever's turn it is, its wakeup would be pending; and a
      main goroutine that has quit leaves a partner whose turn has come. */
  lemma SomeoneMoves(s: State)
    requires Inv(s) && !Done(s)
    ensures !MainBlocked(s) || !PartnerBlocked(s)
  {
  }

  lemma UnblockedMoves(s: State)
    requires Inv(s)
    ensures !MainBlocked(s) ==> CanMove(Step, ActorOf, s, Main)
    ensures !PartnerBlocked(s) ==> CanMove(Step, ActorOf, s, Partner)
  {
    hide Inv;
  }

  lemma NeverStuck()
    ensures DeadlockFree(Step, Inv, Done, ActorOf, {Main, Partner}) && Lasting(Step, Inv, Done)
  {
    forall s | Inv(s) && !Done(s)
      ensures exists who :: who in {Main, Partner} && CanMove(Step, ActorOf, s, who)
    {
      SomeoneMoves(s);
      UnblockedMoves(s);
      hide Inv, Step, MainBlocked, PartnerBlocked;
      if !MainBlocked(s) {
        assert CanMove(Step, ActorOf, s, Main);
      } else {
        assert CanMove(Step, ActorOf, s, Partner);
      }
    }
    hide Inv;
  }

  /** How pp_body leaves things: the partner has taken the turn exactly n + 1 times, read the stop
      flag set the last time only, and left with nobody asleep and the lock free. */
  predicate Clean(s: State) {
    && s.partner.Gone? && s.done && s.lock == None && s.sleepers == {} && s.turn == 0
    && s.round == s.n && s.saw == seq(s.n, _ => false) + [true]
    && |s.writes| == 2 * (s.n + 1)
  }

  lemma DoneIsClean(s: State)
    requires Inv(s) && Done(s)
    ensures Clean(s)
  {
    assert s.sleepers == {} by {
      forall w ensures w !in s.sleepers { assert w == Main || w == Partner; }
    }
  }

  lemma InitOk(n: nat)
    ensures Inv(Init(n)) && Rank(Init(n)) == 32 * n + 39
  {
  }

  /** Safety over whole runs: no wakeup is ever lost, the turns strictly alternate, the stop flag
      is read set on round n + 1 only, the turn is read and written under the lock and every signal
      given without it, and an unfinished state has a goroutine that can move. */
  lemma PingPongIsSafe(n: nat, schedule: seq<Turn>)
    ensures var s := Run(Step, Init(n), schedule);
            && s.n == n && NoLostWakeup(s) && Alternates(s) && Inv(s)
            && (s.main.PassSignal? || s.main.QuitBroadcast? ==> s.lock != Some(Main))
            && (s.partner.TakeSignal? ==> s.lock != Some(Partner))
            && (Passes(s.main) || s.main.AwaitCheck? ==> s.lock == Some(Main))
            && (s.partner.TakeCheck? || s.partner.TakeTurn? ==> s.lock == Some(Partner))
            && |s.saw| <= n + 1 && (forall i :: 0 <= i < |s.saw| ==> (s.saw[i] <==> i == n))
            && (Done(s) ==> Clean(s))
            && (!Done(s) ==> !MainBlocked(s) || !PartnerBlocked(s))
    ensures Moves(Step, Init(n), schedule) <= 32 * n + 39
  {
    var s := Run(Step, Init(n), schedule);
    var sameN := (x: State) => x.n == n;
    assert Inductive(Step, sameN);
    InitOk(n);
    StepsRanked();
    RunKeeps(Step, sameN, Init(n), schedule);
    RunKeeps(Step, Inv, Init(n), schedule);
    MovesBounded(Step, Inv, Rank, Init(n), schedule);
    hide Init, Rank, Step, MainBlocked, PartnerBlocked;
    if Done(s) { DoneIsClean(s); } else { SomeoneMoves(s); }
  }

  /** Liveness: give both goroutines a turn often enough and the ping pong finishes. */
  lemma PingPongFinishes(n: nat, blocks: seq<seq<Turn>>)
    requires forall b | b in blocks :: EveryoneActs(ActorOf, {Main, Partner}, b)
    requires |blocks| > 32 * n + 39
    ensures Done(Run(Step, Init(n), Flatten(blocks)))
  {
    InitOk(n);
    StepsRanked();
    NeverStuck();
    hide Inv, Init, Rank, Step;
    FairRunsFinish(Step, Inv, Rank, Done, ActorOf, {Main, Partner}, Init(n), blocks);
  }

  /** pp_body and pp_partner, statement by statement, over the variables they share. */
  class PingPong {
    const n: nat
    var lock: Option<Who>
    var sleepers: set<Who>
    var turn: int
    var stop: bool
    var done: bool
    var main: MainPc
    var round: nat
    var partner: PartnerPc
    var stopping: bool
    ghost var saw: seq<bool>
    ghost var writes: seq<Who>

    ghost function View(): State
      reads this
    {
      State(n, lock, sleepers, turn, stop, done, main, round, partner, stopping, saw, writes)
    }

    constructor (n: nat)
      ensures View() == Init(n)
    {
      this.n := n;
      lock, sleepers, turn, stop, done := None, {}, 0, false, false;
      main, round := if n == 0 then QuitLock else PassLock, 0;
      partner, stopping, saw, writes := TakeLock, false, [], [];
    }

    method MainTurn(pick: Who)
      modifies this
      ensures View() == MainStep(old(View()), pick)
    {
      match main {
        case PassLock =>
          if lock == None {
            lock := Some(Main);
            main := PassTurn;
          }
        case PassTurn =>
          turn, writes := 1, writes + [Main];
          main := PassUnlock;
        case PassUnlock =>
          lock := None;
          main := PassSignal;
        case PassSignal =>
          sleepers := Signal(sleepers, pick);
          main := AwaitLock;
        case AwaitLock =>
          if lock == None {
            lock := Some(Main);
            main := AwaitCheck;
          }
        case AwaitCheck =>
          if turn != 0 {
            sleepers := sleepers + {Main};
            lock := None;
            main := MainAsleep;
          } else {
            main := AwaitUnlock;
          }
        case MainAsleep =>
          if Main !in sleepers {
            main := MainRelock;
          }
        case MainRelock =>
          if lock == None {
            lock := Some(Main);
            main := AwaitCheck;
          }
        case AwaitUnlock =>
          lock := None;
          round := round + 1;
          main := if round < n then PassLock else QuitLock;
        case QuitLock =>
          if lock == None {
            lock := Some(Main);
            main := QuitTurn;
          }
        case QuitTurn =>
          stop := true;
          turn, writes := 1, writes + [Main];
          main := QuitUnlock;
        case QuitUnlock =>
          lock := None;
          main := QuitBroadcast;
        case QuitBroadcast =>
          sleepers := {};
          main := Spinning;
        case Spinning =>
          if done {
            main := Finished;
          }
        case Finished =>
      }
    }

    method PartnerTurn(pick: Who)
      modifies this
      ensures View() == PartnerStep(old(View()), pick)
    {
      match partner {
        case TakeLock =>
          if lock == None {
            lock := Some(Partner);
            partner := TakeCheck;
          }
        case TakeCheck =>
          if turn != 1 {
            sleepers := sleepers + {Partner};
            lock := None;
            partner := PartnerAsleep;
          } else {
            partner := TakeTurn;
          }
        case PartnerAsleep =>
          if Partner !in sleepers {
            partner := PartnerRelock;
          }
        case PartnerRelock =>
          if lock == None {
            lock := Some(Partner);
            partner := TakeCheck;
          }
        case TakeTurn =>
          stopping, saw := stop, saw + [stop];
          turn, writes := 0, writes + [Partner];
          partner := TakeUnlock;
        case TakeUnlock =>
          lock := None;
          partner := TakeSignal;
        case TakeSignal =>
          sleepers := Signal(sleepers, pick);
          partner := if stopping then Leaving else TakeLock;
        case Leaving =>
          done := true;
          partner := Gone;
        case Gone =>
      }
    }

    /** Any schedule at all, from the start. */
    static method Play(n: nat, schedule: seq<Turn>) returns (p: PingPong)
      ensures p.View() == Run(Step, Init(n), schedule)
      ensures NoLostWakeup(p.View()) && Alternates(p.View())
    {
      p := new PingPong(n);
      for i := 0 to |schedule|
        invariant fresh(p) && p.View() == Run(Step, Init(n), schedule[..i])
      {
        RunSnoc(Step, Init(n), schedule[..i], schedule[i]);
        assert schedule[..i + 1] == schedule[..i] + [schedule[i]];
        if schedule[i].who == Main {
          p.MainTurn(schedule[i].pick);
        } else {
          p.PartnerTurn(schedule[i].pick);
        }
      }
      assert schedule[..|schedule|] == schedule;
      PingPongIsSafe(n, schedule);
    }
  }
}

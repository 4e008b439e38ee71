/** Two threads waking each other through a pair of notes, which are bits that one side sets and
    the other waits for and clears (bench/sync_bench.c). */
module NotePingPong {
  import opened Interleaving
  import opened Sequences

  datatype Who = Main | Worker

  datatype MainPc = SetStop | ClearNote | WakeWorker | SleepNote | Join | Finished
  datatype WorkerPc = SleepWork | ClearWork | ReadStop | WakeMain | Returning | Exited

  /** A note's bit, with the wakes and the finished sleeps so far as history. */
  datatype Note = Note(up: bool, wakes: nat, slept: nat)

  function Wake(note: Note): Note { Note(true, note.wakes + 1, note.slept) }
  function Slept(note: Note): Note { note.(slept := note.slept + 1) }
  function Clear(note: Note): Note { note.(up := false) }

  /** The two notes, the stop flag and both threads' locals. `volley` counts the volleys the main
      thread has finished and `saw` is what the worker has read from the flag, once a pass. */
  datatype State = State(
    n: nat, work: Note, back: Note, stop: bool,
    main: MainPc, volley: nat, worker: WorkerPc, leaving: bool, saw: seq<bool>)

  /** n timed volleys, then one more after the stop flag is set. */
  function NextVolley(n: nat, volley: nat): MainPc {
    if volley < n then ClearNote else if volley == n then SetStop else Join
  }

  function Init(n: nat): State {
    State(n, Note(false, 0, 0), Note(false, 0, 0), false, NextVolley(n, 0), 0, SleepWork, false, [])
  }

  predicate MainBlocked(s: State) {
    (s.main.SleepNote? && !s.back.up) || (s.main.Join? && !s.worker.Exited?) || s.main.Finished?
  }

  function MainNext(s: State): MainPc {
    match s.main
    case SetStop => ClearNote
    case ClearNote => WakeWorker
    case WakeWorker => SleepNote
    case SleepNote => NextVolley(s.n, s.volley + 1)
    case Join | Finished => Finished
  }

  /** What each variable is after the main thread's turn. */
  function MainStep(s: State): State {
    if MainBlocked(s) then s
    else State(
      s.n,
      if s.main.WakeWorker? then Wake(s.work) else s.work,
      if s.main.ClearNote? then Clear(s.back) else if s.main.SleepNote? then Slept(s.back) else s.back,
      s.stop || s.main.SetStop?,
      MainNext(s), if s.main.SleepNote? then s.volley + 1 else s.volley,
      s.worker, s.leaving, s.saw)
  }

  predicate WorkerBlocked(s: State) {
    (s.worker.SleepWork? && !s.work.up) || s.worker.Exited?
  }

  function WorkerNext(s: State): WorkerPc {
    match s.worker
    case SleepWork => ClearWork
    case ClearWork => ReadStop
    case ReadStop => WakeMain
    case WakeMain => if s.leaving then Returning else SleepWork
    case Returning | Exited => Exited
  }

  /** What each variable is after the worker's turn. */
  function WorkerStep(s: State): State {
    if WorkerBlocked(s) then s
    else State(
      s.n,
      if s.worker.SleepWork? then Slept(s.work) else if s.worker.ClearWork? then Clear(s.work) else s.work,
      if s.worker.WakeMain? then Wake(s.back) else s.back,
      s.stop, s.main, s.volley, WorkerNext(s),
      if s.worker.ReadStop? then s.stop else s.leaving,
      if s.worker.ReadStop? then s.saw + [s.stop] else s.saw)
  }

  function Step(s: State, who: Who): State {
    if who == Main then MainStep(s) else WorkerStep(s)
  }

  function ActorOf(who: Who): Who { who }

  predicate Done(s: State) { s.main.Finished? }

  /** How many wakes and sleeps each thread has behind it. */
  predicate CountsOk(s: State) {
    && s.back.slept == s.volley
    && s.work.wakes == s.volley + (if s.main.SleepNote? then 1 else 0)
    && s.work.slept == |s.saw| + (if s.worker.ClearWork? || s.worker.ReadStop? then 1 else 0)
    && |s.saw| == s.back.wakes + (if s.worker.WakeMain? then 1 else 0)
    && s.back.slept <= s.back.wakes && s.work.slept <= s.work.wakes
  }

  /** When each bit is set: a wake nobody has slept through yet, or one not cleared away yet. */
  predicate BitsOk(s: State) {
    && (s.work.up <==> s.work.wakes > s.work.slept || s.worker.ClearWork?)
    && (s.back.up <==> s.back.wakes > s.back.slept ||
                         ((s.main.SetStop? || s.main.ClearNote?) && s.volley > 0) || s.main.Join? || s.main.Finished?)
  }

  predicate VolleysOk(s: State) {
    && (s.main.SetStop? ==> s.volley == s.n)
    && (s.main.ClearNote? || s.main.WakeWorker? || s.main.SleepNote? ==> s.volley <= s.n)
    && (s.main.Join? || s.main.Finished? ==> s.volley == s.n + 1)
    && (s.stop <==> s.volley >= s.n && !s.main.SetStop?)
    && |s.saw| <= s.n + 1 && (forall i :: 0 <= i < |s.saw| ==> (s.saw[i] <==> i == s.n))
    && (s.worker.WakeMain? ==> |s.saw| > 0 && s.leaving == s.saw[|s.saw| - 1])
    && (s.worker.Returning? || s.worker.Exited? ==> |s.saw| == s.n + 1)
    && (s.worker.SleepWork? || s.worker.ClearWork? || s.worker.ReadStop? ==> |s.saw| <= s.n)
    && (s.main.Finished? ==> s.worker.Exited?)
  }

  /** What every step keeps. */
  predicate Inv(s: State) {
    CountsOk(s) && BitsOk(s) && VolleysOk(s)
  }

  lemma MainKeepsInv(s: State)
    requires Inv(s)
    ensures Inv(MainStep(s))
  {
  }

  lemma WorkerKeepsInv(s: State)
    requires Inv(s)
    ensures Inv(WorkerStep(s))
  {
  }

  /** The safety of a state: neither thread wakes a note that is already set, neither clears away
      a wake that has not been slept through, the worker reads the flag with its note cleared, and the worker reads the flag set on pass n + 1 only. */
  predicate Safe(s: State) {
    && (s.main.WakeWorker? ==> !s.work.up)
    && (s.worker.WakeMain? ==> !s.back.up)
    && (s.main.ClearNote? ==> s.back.wakes == s.back.slept)
    && (s.worker.ClearWork? ==> s.work.wakes == s.work.slept)
    && (s.worker.ReadStop? ==> !s.work.up)
    && |s.saw| <= s.n + 1 && (forall i :: 0 <= i < |s.saw| ==> (s.saw[i] <==> i == s.n))
  }

  /** How the main thread leaves things when it frees the notes: the worker has made its n + 1
      passes and exited, so nobody is asleep on either note. */
  predicate Clean(s: State) {
    && s.worker.Exited? && s.volley == s.n + 1 && s.saw == seq(s.n, _ => false) + [true]
    && s.work == Note(false, s.n + 1, s.n + 1) && s.back == Note(true, s.n + 1, s.n + 1)
  }

  lemma InvSafe(s: State)
    requires Inv(s)
    ensures Safe(s) && (Done(s) ==> Clean(s))
  {
  }

  function MainRank(main: MainPc): nat {
    match main
    case SetStop => 4
    case ClearNote => 3
    case WakeWorker => 2
    case SleepNote | Join => 1
    case Finished => 0
  }

  function WorkerRank(worker: WorkerPc): nat {
    match worker
    case WakeMain => 4
    case SleepWork => 3
    case ClearWork => 2
    case ReadStop | Returning => 1
    case Exited => 0
  }

  /** An upper bound on the turns that can still move the system. */
  function Rank(s: State): int {
    5 * (s.n + 1 - s.volley) + MainRank(s.main) + 6 * (s.n + 1 - |s.saw|) + WorkerRank(s.worker)
  }

  lemma StepRanked(s: State, who: Who)
    requires Inv(s)
    ensures 0 <= Rank(s) && (Step(s, who) == s || Rank(Step(s, who)) < Rank(s))
  {
  }

  lemma StepsRanked()
    ensures Inductive(Step, Inv) && Ranked(Step, Inv, Rank)
  {
    forall s, who | Inv(s)
      ensures Inv(Step(s, who)) && (Step(s, who) == s || Rank(Step(s, who)) < Rank(s)) && 0 <= Rank(s)
    {
      MainKeepsInv(s);
      WorkerKeepsInv(s);
      StepRanked(s, who);
      hide Inv, Rank, MainStep, WorkerStep;
    }
  }

  lemma SomeoneMoves(s: State)
    requires Inv(s) && !Done(s)
    ensures !MainBlocked(s) || !WorkerBlocked(s)
  {
  }

  lemma UnblockedMoves(s: State)
    ensures !MainBlocked(s) ==> CanMove(Step, ActorOf, s, Main)
    ensures !WorkerBlocked(s) ==> CanMove(Step, ActorOf, s, Worker)
  {
  }

  lemma NeverStuck()
    ensures DeadlockFree(Step, Inv, Done, ActorOf, {Main, Worker}) && Lasting(Step, Inv, Done)
  {
    forall s | Inv(s) && !Done(s)
      ensures exists who :: who in {Main, Worker} && CanMove(Step, ActorOf, s, who)
    {
      SomeoneMoves(s);
      UnblockedMoves(s);
      hide Inv, Step, MainBlocked, WorkerBlocked;
      if !MainBlocked(s) {
        assert CanMove(Step, ActorOf, s, Main);
      } else {
        assert CanMove(Step, ActorOf, s, Worker);
      }
    }
    hide Inv;
  }

  lemma InitOk(n: nat)
    ensures Inv(Init(n)) && Rank(Init(n)) <= 11 * n + 18
  {
  }

  /** Safety over whole runs, for every iteration count and interleaving. */
  lemma NotesAreSafe(n: nat, schedule: seq<Who>)
    ensures var s := Run(Step, Init(n), schedule);
            && s.n == n && Safe(s) && Inv(s)
            && (Done(s) ==> Clean(s))
            && (!Done(s) ==> !MainBlocked(s) || !WorkerBlocked(s))
    ensures Moves(Step, Init(n), schedule) <= 11 * n + 18
  {
    var s := Run(Step, Init(n), schedule);
    var sameN := (x: State) => x.n == n;
    assert Inductive(Step, sameN);
    InitOk(n);
    StepsRanked();
    RunKeeps(Step, sameN, Init(n), schedule);
    hide Inv, Init, Rank, Step, Safe, Clean, MainBlocked, WorkerBlocked;
    RunKeeps(Step, Inv, Init(n), schedule);
    MovesBounded(Step, Inv, Rank, Init(n), schedule);
    InvSafe(s);
    if !Done(s) { SomeoneMoves(s); }
  }

  /** Liveness: give both threads a turn often enough and the worker is joined. */
  lemma NotesFinish(n: nat, blocks: seq<seq<Who>>)
    requires forall b | b in blocks :: EveryoneActs(ActorOf, {Main, Worker}, b)
    requires |blocks| > 11 * n + 18
    ensures Done(Run(Step, Init(n), Flatten(blocks)))
  {
    InitOk(n);
    StepsRanked();
    NeverStuck();
    hide Inv, Init, Rank, Step;
    FairRunsFinish(Step, Inv, Rank, Done, ActorOf, {Main, Worker}, Init(n), blocks);
  }

  /** The two threads, statement by statement, over the notes and the flag they share. */
  class PingPong {
    const n: nat
    var work: Note
    var back: Note
    var stop: bool
    var main: MainPc
    var volley: nat
    var worker: WorkerPc
    var leaving: bool
    ghost var saw: seq<bool>

    ghost function View(): State
      reads this
    {
      State(n, work, back, stop, main, volley, worker, leaving, saw)
    }

    constructor (n: nat)
      ensures View() == Init(n)
    {
      this.n := n;
      work, back, stop := Note(false, 0, 0), Note(false, 0, 0), false;
      main, volley, worker, leaving, saw := NextVolley(n, 0), 0, SleepWork, false, [];
    }

    method MainTurn()
      modifies this
      ensures View() == MainStep(old(View()))
    {
      match main {
        case SetStop =>
          stop := true;
          main := ClearNote;
        case ClearNote =>
          back := Clear(back);
          main := WakeWorker;
        case WakeWorker =>
          work := Wake(work);
          main := SleepNote;
        case SleepNote =>
          if back.up {
            back := Slept(back);
            volley := volley + 1;
            main := NextVolley(n, volley);
          }
        case Join =>
          if worker == Exited {
            main := Finished;
          }
        case Finished =>
      }
    }

    method WorkerTurn()
      modifies this
      ensures View() == WorkerStep(old(View()))
    {
      match worker {
        case SleepWork =>
          if work.up {
            work := Slept(work);
            worker := ClearWork;
          }
        case ClearWork =>
          work := Clear(work);
          worker := ReadStop;
        case ReadStop =>
          leaving, saw := stop, saw + [stop];
          worker := WakeMain;
        case WakeMain =>
          back := Wake(back);
          worker := if leaving then Returning else SleepWork;
        case Returning =>
          worker := Exited;
        case Exited =>
      }
    }

    /** Any schedule at all, from the start. */
    static method Play(n: nat, schedule: seq<Who>) returns (p: PingPong)
      ensures p.View() == Run(Step, Init(n), schedule) && Safe(p.View())
    {
      p := new PingPong(n);
      for i := 0 to |schedule|
        invariant fresh(p) && p.View() == Run(Step, Init(n), schedule[..i])
      {
        RunSnoc(Step, Init(n), schedule[..i], schedule[i]);
        assert schedule[..i + 1] == schedule[..i] + [schedule[i]];
        if schedule[i] == Main {
          p.MainTurn();
        } else {
          p.WorkerTurn();
        }
      }
      assert schedule[..|schedule|] == schedule;
      NotesAreSafe(n, schedule);
    }
  }
}

/** Why hand_child reads the stop flag before it signals (bench/sched_bench.c). With the two
    statements exchanged, the handoff can hang. */
module LateRead {
  import opened Wrappers
  import opened Interleaving
  import opened GateHandoff

  /** hand_child as it would be with the signal first and the read after it. */
  function LateChildStep(s: State): State {
    match s.child
    case ChildWaiting(at) =>
      var m := GateStep(Child, at, s.there, s.parked);
      s.(there := m.g, parked := m.parked,
         child := if m.at.Returned? then ChildSignalling(SignalLock) else ChildWaiting(m.at))
    case ChildSignalling(at) =>
      var m := GateStep(Child, at, s.back, s.parked);
      s.(back := m.g, parked := m.parked, child := if m.at.Returned? then Reading else ChildSignalling(m.at))
    case Reading =>
      s.(stopping := s.stop, saw := s.saw + [s.stop], child := if s.stop then Leaving else ChildWaiting(WaitLock))
    case Leaving => s.(gone := s.gone + 1, child := Gone)
    case Gone => s
  }

  function LateStep(s: State, who: Who): State {
    if who == Main then MainStep(s) else LateChildStep(s)
  }

  ghost predicate Reaches(s: State, t: State) {
    exists schedule: seq<Who> :: Run(LateStep, s, schedule) == t
  }

  lemma ReachesSelf(s: State)
    ensures Reaches(s, s)
  {
    assert Run(LateStep, s, []) == s;
  }

  lemma ReachesNext(s: State, t: State, who: Who)
    requires Reaches(s, t)
    ensures Reaches(s, LateStep(t, who))
  {
    var schedule :| Run(LateStep, s, schedule) == t;
    RunSnoc(LateStep, s, schedule, who);
  }

  /** One goroutine takes several turns. */
  function Turns(s: State, who: Who, k: nat): State {
    if k == 0 then s else LateStep(Turns(s, who, k - 1), who)
  }

  lemma {:induction false} ReachesTurns(s: State, t: State, who: Who, k: nat)
    requires Reaches(s, t)
    ensures Reaches(s, Turns(t, who, k))
  {
    if k > 0 {
      ReachesTurns(s, t, who, k - 1);
      ReachesNext(s, Turns(t, who, k - 1), who);
    }
  }

  function Idle(k: nat): GateState { GateState(None, None, false, k, k) }
  function Given(k: nat): GateState { GateState(None, None, true, k + 1, k) }

  /** Between two volleys, with the child back at the start of its loop. */
  function Between(n: nat, k: nat): State {
    State(n, Idle(k), Idle(k), {}, false, 0, AfterVolley(n, k), k, ChildWaiting(WaitLock), false, seq(k, _ => false))
  }

  /** The volley is over for the main goroutine, and the child has still to read the flag. */
  function Unread(n: nat, k: nat): State {
    Between(n, k).(there := Idle(k + 1), back := Idle(k + 1), main := AfterVolley(n, k + 1), volley := k + 1,
                   child := Reading)
  }

  lemma MainSignals(s: State)
    requires s.main == Signalling(SignalLock) && s.there == Idle(s.there.sent)
    ensures Turns(s, Main, 3) == s.(there := Given(s.there.sent), main := Waiting(WaitLock))
  {
    assert Turns(s, Main, 0) == s;
    assert Turns(s, Main, 1) == s.(there := s.there.(lock := Some(Main)), main := Signalling(SignalCheck));
    assert Turns(s, Main, 2) ==
           s.(there := Given(s.there.sent).(lock := Some(Main)), main := Signalling(SignalUnlock));
  }

  lemma ChildTakes(s: State)
    requires s.child == ChildWaiting(WaitLock) && s.there == Given(s.there.taken)
    ensures Turns(s, Child, 3) == s.(there := Idle(s.there.sent), child := ChildSignalling(SignalLock))
  {
    assert Turns(s, Child, 0) == s;
    assert Turns(s, Child, 1) == s.(there := s.there.(lock := Some(Child)), child := ChildWaiting(WaitCheck));
    assert Turns(s, Child, 2) ==
           s.(there := s.there.(lock := Some(Child), signalled := false), child := ChildWaiting(WaitUnlock));
  }

  lemma ChildAnswers(s: State)
    requires s.child == ChildSignalling(SignalLock) && s.back == Idle(s.back.sent)
    ensures Turns(s, Child, 3) == s.(back := Given(s.back.sent), child := Reading)
  {
    assert Turns(s, Child, 0) == s;
    assert Turns(s, Child, 1) == s.(back := s.back.(lock := Some(Child)), child := ChildSignalling(SignalCheck));
    assert Turns(s, Child, 2) ==
           s.(back := Given(s.back.sent).(lock := Some(Child)), child := ChildSignalling(SignalUnlock));
  }

  lemma MainReceives(s: State)
    requires s.main == Waiting(WaitLock) && s.back == Given(s.back.taken)
    ensures Turns(s, Main, 3) ==
            s.(back := Idle(s.back.sent), volley := s.volley + 1, main := AfterVolley(s.n, s.volley + 1))
  {
    assert Turns(s, Main, 0) == s;
    assert Turns(s, Main, 1) == s.(back := s.back.(lock := Some(Main)), main := Waiting(WaitCheck));
    assert Turns(s, Main, 2) ==
           s.(back := s.back.(lock := Some(Main), signalled := false), main := Waiting(WaitUnlock));
  }

  lemma VolleyRuns(s: State, n: nat, k: nat)
    requires k <= n && Reaches(s, Between(n, k))
    ensures Reaches(s, Unread(n, k))
  {
    hide Reaches, Turns;
    var t := Between(n, k);
    MainSignals(t);
    ReachesTurns(s, t, Main, 3);
    t := Turns(t, Main, 3);
    ChildTakes(t);
    ReachesTurns(s, t, Child, 3);
    t := Turns(t, Child, 3);
    ChildAnswers(t);
    ReachesTurns(s, t, Child, 3);
    t := Turns(t, Child, 3);
    MainReceives(t);
    ReachesTurns(s, t, Main, 3);
  }

  /** The first n volleys can go as they should. */
  lemma {:induction false} VolleysRun(n: nat, k: nat)
    requires k <= n
    ensures Reaches(Init(n), Between(n, k))
  {
    if k == 0 {
      ReachesSelf(Init(n));
      assert Init(n) == Between(n, 0);
    } else {
      VolleysRun(n, k - 1);
      VolleyRuns(Init(n), n, k - 1);
      ReachesNext(Init(n), Unread(n, k - 1), Child);
      assert seq(k - 1, _ => false) + [false] == seq(k, _ => false);
    }
  }

  /** A state in which no turn does anything and hand_body has not finished. */
  predicate Hangs(s: State) {
    !Done(s) && LateStep(s, Main) == s && LateStep(s, Child) == s
  }

  /** After the last timed volley the flag is set before the child has read it for that volley. */
  lemma ChildLeavesEarly(n: nat, s: State)
    requires s == Unread(n, n)
    ensures var t := Turns(Turns(s, Main, 1), Child, 2);
            t.child.Gone? && t.main == Signalling(SignalLock) && t.there == t.back == Idle(n + 1) && t.parked == {}
  {
    assert Turns(s, Main, 0) == s;
    var t := Turns(s, Main, 1);
    assert t == s.(stop := true, main := Signalling(SignalLock));
    assert Turns(t, Child, 0) == t && Turns(t, Child, 1).child.Leaving?;
  }

  lemma MainSleeps(s: State)
    requires s.main == Waiting(WaitLock) && s.back == Idle(s.back.sent)
    ensures Turns(s, Main, 4) ==
            s.(back := s.back.(waiter := Some(Main)), parked := s.parked + {Main}, main := Waiting(Asleep))
  {
    var locked := s.back.(lock := Some(Main));
    assert Turns(s, Main, 0) == s;
    assert Turns(s, Main, 1) == s.(back := locked, main := Waiting(WaitCheck));
    assert Turns(s, Main, 2) == s.(back := locked.(waiter := Some(Main)), main := Waiting(WaitPark));
    assert Turns(s, Main, 3) ==
           s.(back := locked.(waiter := Some(Main)), parked := s.parked + {Main}, main := Waiting(WaitCommit));
  }

  /** For every n there is a schedule on which the exchanged program hangs: hand_body sleeps on the
      gate for the volley after the flag, and the child, which read the flag one volley early, is
      gone. As the source has it, GateHandoff.HandoffIsSafe leaves no such schedule. */
  lemma LateReadCanHang(n: nat)
    ensures exists schedule :: Hangs(Run(LateStep, Init(n), schedule))
  {
    hide Turns;
    VolleysRun(n, n);
    VolleyRuns(Init(n), n, n);
    var t := Unread(n, n);
    ChildLeavesEarly(n, t);
    ReachesTurns(Init(n), t, Main, 1);
    t := Turns(t, Main, 1);
    ReachesTurns(Init(n), t, Child, 2);
    t := Turns(t, Child, 2);
    MainSignals(t);
    ReachesTurns(Init(n), t, Main, 3);
    t := Turns(t, Main, 3);
    MainSleeps(t);
    ReachesTurns(Init(n), t, Main, 4);
    t := Turns(t, Main, 4);
    assert Hangs(t);
    var schedule :| Run(LateStep, Init(n), schedule) == t;
    assert Hangs(Run(LateStep, Init(n), schedule));
  }
}

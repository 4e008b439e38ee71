/** One goroutine sending 0, 1, ..., n - 1 down a channel of any capacity and closing it, another
    adding up what it receives until the channel is drained (bench/chan_bench.c). */
module ProducerConsumer {
  import opened Arithmetic
  import opened Wrappers
  import opened Interleaving
  import opened Sequences
  import opened Channels

  datatype Who = Producer | Consumer
  datatype ProducerPc = Send | Sending | CloseChan | Gone
  datatype ConsumerPc = Recv | Receiving | Finished

  /** The channel and both goroutines' locals. `i` is the producer's loop counter and `sum` the
      consumer's 64-bit accumulator. */
  datatype State = State(n: nat, c: Chan, producer: ProducerPc, i: nat, consumer: ConsumerPc, sum: nat)

  function NextSend(n: nat, i: nat): ProducerPc {
    if i < n then Send else CloseChan
  }

  function Init(n: nat, cap: nat): State {
    State(n, Make(cap), NextSend(n, 0), 0, Recv, 0)
  }

  predicate ProducerBlocked(s: State) {
    (s.producer.Sending? && s.c.sender.Some?) || s.producer.Gone?
  }

  function ProducerChan(s: State): Chan {
    match s.producer
    case Send => Channels.Send(s.c, s.i)
    case CloseChan => Close(s.c)
    case _ => s.c
  }

  /** The send is over. */
  predicate Sent(s: State) {
    s.producer.Sending? || (s.producer.Send? && ProducerChan(s).sender == None)
  }

  function ProducerStep(s: State): State {
    if ProducerBlocked(s) then s
    else State(
      s.n, ProducerChan(s),
      if Sent(s) then NextSend(s.n, s.i + 1) else if s.producer.Send? then Sending else Gone,
      if Sent(s) then s.i + 1 else s.i,
      s.consumer, s.sum)
  }

  predicate ConsumerBlocked(s: State) {
    (s.consumer.Receiving? && s.c.receiver) || s.consumer.Finished?
  }

  function ConsumerChan(s: State): Chan {
    match s.consumer
    case Recv => Channels.Recv(s.c)
    case Receiving => Collect(s.c)
    case Finished => s.c
  }

  predicate Arrives(s: State) {
    |ConsumerChan(s).got| > |s.c.got|
  }

  function ToUint64(v: int): nat {
    v % TWO64
  }

  function ConsumerStep(s: State): State {
    if ConsumerBlocked(s) then s
    else State(
      s.n, ConsumerChan(s), s.producer, s.i,
      if ConsumerChan(s).receiver then Receiving else if Arrives(s) then Recv else Finished,
      if Arrives(s) then (s.sum + ToUint64(ConsumerChan(s).got[|s.c.got|])) % TWO64 else s.sum)
  }

  function Step(s: State, who: Who): State {
    if who == Producer then ProducerStep(s) else ConsumerStep(s)
  }

  function ActorOf(who: Who): Who { who }

  predicate Done(s: State) { s.consumer.Finished? }

  /** The values 0, 1, 2 and so on. */
  predicate Counting(vs: seq<int>) {
    forall k :: 0 <= k < |vs| ==> vs[k] == k
  }

  /** 0 + 1 + ... + (m - 1). */
  function Triangle(m: nat): nat {
    m * (m - 1) / 2
  }

  lemma TriangleStep(m: nat)
    ensures Triangle(m + 1) == Triangle(m) + m
  {
    assert (m + 1) * m == m * (m - 1) + 2 * m;
  }

  predicate ParkedOk(s: State) {
    && Ok(s.c)
    && (s.c.sender.Some? ==> s.producer.Sending?)
    && (s.c.receiver || s.c.landed.Some? ==> s.consumer.Receiving?)
    && (s.consumer.Receiving? && !s.c.receiver && s.c.landed == None ==> s.c.closed && Load(s.c) == [])
    && (s.c.closed <==> s.producer.Gone?)
    && (s.consumer.Finished? ==> s.c.closed && Load(s.c) == [])
  }

  predicate ValuesOk(s: State) {
    && s.i <= s.n && (s.producer.Send? || s.producer.Sending? <==> s.i < s.n)
    && |s.c.sent| == s.i + (if s.producer.Sending? then 1 else 0)
    && Counting(s.c.sent)
  }

  /** What every step keeps. */
  predicate Inv(s: State) {
    ParkedOk(s) && ValuesOk(s) && s.sum == Triangle(|s.c.got|) % TWO64
  }

  lemma ProducerKeepsInv(s: State)
    requires Inv(s)
    ensures Inv(ProducerStep(s))
  {
    hide Triangle, Channels.Send, Close;
  }

  lemma ConsumerKeepsParked(s: State)
    requires ParkedOk(s) && ValuesOk(s)
    ensures ParkedOk(ConsumerStep(s)) && ValuesOk(ConsumerStep(s))
  {
    hide Channels.Recv, Collect;
  }

  lemma SumStep(sum: nat, m: nat)
    requires sum == Triangle(m) % TWO64
    ensures (sum + ToUint64(m)) % TWO64 == Triangle(m + 1) % TWO64
  {
    hide Triangle;
    TriangleStep(m);
    AddRemainders(Triangle(m), m);
  }

  lemma AddRemainders(a: int, b: int)
    ensures (a % TWO64 + b % TWO64) % TWO64 == (a + b) % TWO64
  {
    assert a == TWO64 * (a / TWO64) + a % TWO64 && b == TWO64 * (b / TWO64) + b % TWO64;
  }

  lemma ConsumerKeepsInv(s: State)
    requires Inv(s)
    ensures Inv(ConsumerStep(s))
  {
    ConsumerKeepsParked(s);
    var c := ConsumerChan(s);
    if !ConsumerBlocked(s) && Arrives(s) {
      assert c.got[|s.c.got|] == s.c.sent[|s.c.got|] == |s.c.got|;
      SumStep(s.sum, |s.c.got|);
    }
    hide Channels.Recv, Collect, Triangle;
  }

  /** An upper bound on the turns that can still move the system. */
  function Rank(s: State): int {
    3 * (s.n - s.i) + (if s.producer.Send? then 2 else if s.producer.Gone? then 0 else 1)
    + 3 * (s.n - |s.c.got|) + (if s.consumer.Recv? then 2 else if s.consumer.Finished? then 0 else 1)
  }

  lemma StepRanked(s: State, who: Who)
    requires Inv(s)
    ensures 0 <= Rank(s) && (Step(s, who) == s || Rank(Step(s, who)) < Rank(s))
  {
    hide Channels.Send, Channels.Recv, Close, Collect, Triangle;
  }

  lemma StepsRanked()
    ensures Inductive(Step, Inv) && Ranked(Step, Inv, Rank)
  {
    forall s, who | Inv(s)
      ensures Inv(Step(s, who)) && (Step(s, who) == s || Rank(Step(s, who)) < Rank(s)) && 0 <= Rank(s)
    {
      ProducerKeepsInv(s);
      ConsumerKeepsInv(s);
      StepRanked(s, who);
      hide Inv, Rank, ProducerStep, ConsumerStep;
    }
  }

  lemma SomeoneMoves(s: State)
    requires Inv(s) && !Done(s)
    ensures !ProducerBlocked(s) || !ConsumerBlocked(s)
  {
  }

  lemma UnblockedMoves(s: State)
    requires Inv(s)
    ensures !ProducerBlocked(s) ==> CanMove(Step, ActorOf, s, Producer)
    ensures !ConsumerBlocked(s) ==> CanMove(Step, ActorOf, s, Consumer)
  {
    hide Triangle, ToUint64, Channels.Send, Close;
  }

  lemma NeverStuck()
    ensures DeadlockFree(Step, Inv, Done, ActorOf, {Producer, Consumer}) && Lasting(Step, Inv, Done)
  {
    forall s | Inv(s) && !Done(s)
      ensures exists who :: who in {Producer, Consumer} && CanMove(Step, ActorOf, s, who)
    {
      SomeoneMoves(s);
      UnblockedMoves(s);
      hide Inv, Step, ProducerBlocked, ConsumerBlocked;
      if !ProducerBlocked(s) {
        assert CanMove(Step, ActorOf, s, Producer);
      } else {
        assert CanMove(Step, ActorOf, s, Consumer);
      }
    }
    hide Inv;
  }

  /** The safety of a state: what has been received is a prefix of 0, 1, ..., n - 1, the buffer is
      within its capacity, and the running sum is that of the values received. */
  predicate Safe(s: State) {
    && Counting(s.c.got) && |s.c.got| <= s.n && |s.c.buf| <= s.c.cap
    && s.sum == |s.c.got| * (|s.c.got| - 1) / 2 % 0x1_0000_0000_0000_0000
  }

  /** The receive that finds the channel closed comes after all n values, and nothing is left. */
  predicate Clean(s: State) {
    && |s.c.got| == s.n && Load(s.c) == [] && s.producer.Gone? && s.sum == s.n * (s.n - 1) / 2 % 0x1_0000_0000_0000_0000
  }

  lemma InvSafe(s: State)
    requires Inv(s)
    ensures Safe(s) && (Done(s) ==> Clean(s))
  {
    assert forall k :: 0 <= k < |s.c.got| ==> s.c.got[k] == s.c.sent[k];
  }

  lemma InitOk(n: nat, cap: nat)
    ensures Inv(Init(n, cap)) && Rank(Init(n, cap)) <= 6 * n + 4
  {
  }

  lemma KeepsParameters(n: nat, cap: nat)
    ensures Inductive(Step, (x: State) => Inv(x) && x.n == n && x.c.cap == cap)
  {
    forall s, who | Inv(s) && s.n == n && s.c.cap == cap
      ensures Inv(Step(s, who)) && Step(s, who).n == n && Step(s, who).c.cap == cap
    {
      ProducerKeepsInv(s);
      ConsumerKeepsInv(s);
      hide Triangle, Channels.Send, Channels.Recv, Collect, Close;
    }
  }

  /** Safety over whole runs, for every capacity, iteration count and interleaving. */
  lemma PipelineIsSafe(n: nat, cap: nat, schedule: seq<Who>)
    ensures var s := Run(Step, Init(n, cap), schedule);
            && s.n == n && s.c.cap == cap && Safe(s) && Inv(s)
            && (Done(s) ==> Clean(s))
            && (!Done(s) ==> !ProducerBlocked(s) || !ConsumerBlocked(s))
    ensures Moves(Step, Init(n, cap), schedule) <= 6 * n + 4
  {
    var s := Run(Step, Init(n, cap), schedule);
    InitOk(n, cap);
    StepsRanked();
    KeepsParameters(n, cap);
    RunKeeps(Step, (x: State) => Inv(x) && x.n == n && x.c.cap == cap, Init(n, cap), schedule);
    hide Inv, Rank, Step, Safe, Clean, ProducerBlocked, ConsumerBlocked;
    MovesBounded(Step, Inv, Rank, Init(n, cap), schedule);
    InvSafe(s);
    if !Done(s) { SomeoneMoves(s); }
  }

  /** Liveness: give both goroutines a turn often enough and the consumer finishes. */
  lemma PipelineFinishes(n: nat, cap: nat, blocks: seq<seq<Who>>)
    requires forall b | b in blocks :: EveryoneActs(ActorOf, {Producer, Consumer}, b)
    requires |blocks| > 6 * n + 4
    ensures Done(Run(Step, Init(n, cap), Flatten(blocks)))
  {
    InitOk(n, cap);
    StepsRanked();
    NeverStuck();
    hide Inv, Init, Rank, Step;
    FairRunsFinish(Step, Inv, Rank, Done, ActorOf, {Producer, Consumer}, Init(n, cap), blocks);
  }

  /** prodcons_producer and prodcons_body, statement by statement. */
  class Pipeline {
    const n: nat
    var c: Chan
    var producer: ProducerPc
    var i: nat
    var consumer: ConsumerPc
    var sum: nat

    function View(): State
      reads this
    {
      State(n, c, producer, i, consumer, sum)
    }

    constructor (n: nat, cap: nat)
      ensures View() == Init(n, cap)
    {
      this.n := n;
      c, producer, i, consumer, sum := Make(cap), NextSend(n, 0), 0, Recv, 0;
    }

    method ProducerTurn()
      modifies this
      ensures View() == ProducerStep(old(View()))
    {
      match producer {
        case Send =>
          c := Channels.Send(c, i);
          if c.sender.Some? {
            producer := Sending;
          } else {
            i := i + 1;
            producer := NextSend(n, i);
          }
        case Sending =>
          if c.sender == None {
            i := i + 1;
            producer := NextSend(n, i);
          }
        case CloseChan =>
          c := Close(c);
          producer := Gone;
        case Gone =>
      }
    }

    method ConsumerTurn()
      modifies this
      ensures View() == ConsumerStep(old(View()))
    {
      var before := |c.got|;
      if consumer.Finished? || (consumer.Receiving? && c.receiver) {
        return;
      }
      c := if consumer.Recv? then Channels.Recv(c) else Collect(c);
      if c.receiver {
        consumer := Receiving;
      } else if |c.got| > before {
        consumer := Recv;
      } else {
        consumer := Finished;
      }
      if |c.got| > before {
        sum := (sum + ToUint64(c.got[before])) % TWO64;
      }
    }

    /** Any schedule at all, from the start. */
    static method Play(n: nat, cap: nat, schedule: seq<Who>) returns (p: Pipeline)
      ensures p.View() == Run(Step, Init(n, cap), schedule) && Safe(p.View())
    {
      p := new Pipeline(n, cap);
      for k := 0 to |schedule|
        invariant fresh(p) && p.View() == Run(Step, Init(n, cap), schedule[..k])
      {
        RunSnoc(Step, Init(n, cap), schedule[..k], schedule[k]);
        assert schedule[..k + 1] == schedule[..k] + [schedule[k]];
        if schedule[k] == Producer {
          p.ProducerTurn();
        } else {
          p.ConsumerTurn();
        }
      }
      assert schedule[..|schedule|] == schedule;
      PipelineIsSafe(n, cap, schedule);
    }
  }
}

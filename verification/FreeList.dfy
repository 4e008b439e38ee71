/** Boxes going round a free list while a reclaimer gives them back late and in any order
    (bench/reclaim_bench.c). */
module FreeList {

  /** What happens to the boxes: one is handed out, newly made or reused, or one comes back. */
  datatype Event<T> = Get(box: T, isNew: bool) | Free(box: T)

  /** The free list from its head, the boxes handed out and not yet back, and all boxes made. */
  datatype Pool<T> = Pool(free: seq<T>, out: set<T>, made: seq<T>)

  function Empty<T(==)>(): Pool<T> { Pool([], {}, []) }

  /** The events a pool allows. A box is made only when the free list is empty. */
  predicate Possible<T(==)>(p: Pool<T>, e: Event<T>) {
    match e
    case Get(box, isNew) =>
      if p.free == [] then isNew && box !in p.made else !isNew && box == p.free[0]
    case Free(box) => box in p.out
  }

  function Apply<T(==)>(p: Pool<T>, e: Event<T>): Pool<T> {
    match e
    case Get(box, isNew) =>
      Pool(if p.free == [] then [] else p.free[1..], p.out + {box}, if isNew then p.made + [box] else p.made)
    case Free(box) => Pool([box] + p.free, p.out - {box}, p.made)
  }

  function Replay<T(==)>(trace: seq<Event<T>>): Pool<T> {
    if trace == [] then Empty()
    else Apply(Replay(trace[..|trace| - 1]), trace[|trace| - 1])
  }

  predicate AllPossible<T(==)>(trace: seq<Event<T>>) {
    trace != [] ==>
      && AllPossible(trace[..|trace| - 1])
      && Possible(Replay(trace[..|trace| - 1]), trace[|trace| - 1])
  }

  function Max(a: nat, b: nat): nat { if a > b then a else b }

  /** The most boxes that were ever outstanding at once. */
  function HighWater<T(==)>(trace: seq<Event<T>>): nat {
    if trace == [] then 0
    else Max(HighWater(trace[..|trace| - 1]), |Replay(trace).out|)
  }

  /** How many boxes were handed out. */
  function Gets<T>(trace: seq<Event<T>>): nat {
    if trace == [] then 0
    else Gets(trace[..|trace| - 1]) + if trace[|trace| - 1].Get? then 1 else 0
  }

  predicate Distinct<T(==)>(s: seq<T>) {
    forall i, j :: 0 <= i < j < |s| ==> s[i] != s[j]
  }

  /** Every box made is on the free list or outstanding, never both, and on the list only once. */
  predicate Sound<T(==)>(p: Pool<T>) {
    && Distinct(p.free) && Distinct(p.made)
    && (forall x :: x in p.free ==> x !in p.out)
    && (forall x :: x in p.made ==> x in p.free || x in p.out)
    && (forall x :: x in p.free ==> x in p.made)
    && (forall x :: x in p.out ==> x in p.made)
    && |p.made| == |p.free| + |p.out|
  }

  lemma ApplySound<T>(p: Pool<T>, e: Event<T>)
    requires Sound(p) && Possible(p, e)
    ensures Sound(Apply(p, e))
  {
    match e
    case Get(box, isNew) =>
      if isNew {
        assert box !in p.out;
      } else {
        assert box in p.free && p.free == [box] + p.free[1..];
      }
    case Free(box) =>
  }

  /** However late and in whatever order boxes come back: the free list never holds a box twice or
      one still outstanding, and as many boxes are made as were ever outstanding at once. */
  lemma {:induction false} AllocsAreHighWater<T>(trace: seq<Event<T>>)
    requires AllPossible(trace)
    ensures Sound(Replay(trace)) && |Replay(trace).made| == HighWater(trace)
  {
    if trace != [] {
      var before := trace[..|trace| - 1];
      AllocsAreHighWater(before);
      ApplySound(Replay(before), trace[|trace| - 1]);
    }
  }

  /** The boxes outstanding are those handed out less those given back. */
  lemma {:induction false} OutstandingIs<T>(trace: seq<Event<T>>)
    requires AllPossible(trace)
    ensures |Replay(trace).out| == 2 * Gets(trace) - |trace|
  {
    if trace != [] {
      var before := trace[..|trace| - 1];
      OutstandingIs(before);
      AllocsAreHighWater(before);
      assert Sound(Replay(before));
    }
  }

  lemma {:induction false} HighWaterIsPeak<T>(trace: seq<Event<T>>)
    ensures forall k :: 0 <= k <= |trace| ==> |Replay(trace[..k]).out| <= HighWater(trace)
    ensures exists k :: 0 <= k <= |trace| && |Replay(trace[..k]).out| == HighWater(trace)
  {
    assert trace[..|trace|] == trace;
    if trace != [] {
      var before := trace[..|trace| - 1];
      HighWaterIsPeak(before);
      assert forall k :: 0 <= k < |trace| ==> before[..k] == trace[..k];
    }
  }

  lemma {:induction false} PrefixPossible<T>(trace: seq<Event<T>>, k: nat)
    requires AllPossible(trace) && k <= |trace|
    ensures AllPossible(trace[..k])
  {
    if k < |trace| {
      PrefixPossible(trace[..|trace| - 1], k);
      assert trace[..|trace| - 1][..k] == trace[..k];
    } else {
      assert trace[..k] == trace;
    }
  }

  /** Counting events only: at no point of the history had more boxes gone out than come back by more
      than were made, and at some point by exactly as many. */
  lemma MadeIsPeak<T>(trace: seq<Event<T>>)
    requires AllPossible(trace)
    ensures forall k :: 0 <= k <= |trace| ==> 2 * Gets(trace[..k]) - k <= |Replay(trace).made|
    ensures exists k :: 0 <= k <= |trace| && 2 * Gets(trace[..k]) - k == |Replay(trace).made|
  {
    AllocsAreHighWater(trace);
    HighWaterIsPeak(trace);
    forall k | 0 <= k <= |trace| ensures |Replay(trace[..k]).out| == 2 * Gets(trace[..k]) - k {
      PrefixPossible(trace, k);
      OutstandingIs(trace[..k]);
    }
    hide Replay, AllPossible, Gets, HighWater;
  }

  class Box {
    var reuse: Box?

    constructor ()
      ensures reuse == null
    {
      reuse := null;
    }
  }

  /** The static pool, with the boxes that the reclaimer still holds. */
  class BoxPool {
    var pool: Box?
    var limbo: set<Box>
    ghost var chain: seq<Box>
    ghost var made: seq<Box>
    ghost var trace: seq<Event<Box>>

    ghost function Boxes(): set<Box>
      reads `made
    {
      set x | x in made
    }

    ghost function View(): Pool<Box>
      reads `limbo, `chain, `made
    {
      Pool(chain, limbo, made)
    }

    /** The box after position i of a chain, or null at its end. */
    static ghost function After(chain: seq<Box>, i: nat): Box? {
      if i + 1 < |chain| then chain[i + 1] else null
    }

    /** The chain really is what following `reuse` from the head visits; it ends, so it has no
        cycle. */
    ghost predicate Linked()
      reads `pool, `chain, chain
    {
      && pool == (if chain == [] then null else chain[0])
      && (forall i :: 0 <= i < |chain| ==> chain[i].reuse == After(chain, i))
    }

    lemma EmptyIffNull()
      requires Linked()
      ensures pool == null <==> chain == []
    {
    }

    ghost predicate Recorded()
      reads `limbo, `chain, `made, `trace
    {
      AllPossible(trace) && View() == Replay(trace) && Sound(View())
    }

    ghost predicate Valid()
      reads this, chain
    {
      Linked() && Recorded()
    }

    constructor ()
      ensures Valid() && View() == Empty() && trace == []
    {
      pool, limbo, chain, made, trace := null, {}, [], [], [];
    }

    /** Adds the event that took the pool from `before` to what it is now to the account. */
    ghost method Record(before: Pool<Box>, e: Event<Box>)
      requires AllPossible(trace) && before == Replay(trace) && Sound(before)
      requires Possible(before, e) && View() == Apply(before, e)
      modifies this`trace
      ensures Recorded() && trace == old(trace) + [e]
      ensures Gets(trace) == Gets(old(trace)) + if e.Get? then 1 else 0
    {
      ApplySound(before, e);
      hide Sound, Apply, Possible;
      trace := trace + [e];
      assert trace[..|trace| - 1] == old(trace);
    }

    /** The body of box_free: the box becomes the head of the list. */
    method Push(x: Box)
      requires Linked() && x !in chain
      modifies `pool, `chain, x
      ensures Linked() && chain == [x] + old(chain)
    {
      x.reuse := pool;
      pool := x;
      chain := [x] + chain;
      forall i | 0 < i < |chain| ensures chain[i].reuse == After(chain, i) {
        assert chain[i] == old(chain)[i - 1] && After(chain, i) == After(old(chain), i - 1);
      }
    }

    /** The first half of box_get: the head leaves the list, if there is one. */
    method Pop() returns (x: Box?)
      requires Linked()
      modifies `pool, `chain
      ensures Linked()
      ensures if old(chain) == [] then x == null && chain == [] else x == old(chain)[0] && chain == old(chain)[1..]
    {
      x := pool;
      if x != null {
        assert x == chain[0];
        pool := x.reuse;
        chain := chain[1..];
        forall i | 0 <= i < |chain| ensures chain[i].reuse == After(chain, i) {
          assert chain[i] == old(chain)[i + 1] && After(chain, i) == After(old(chain), i + 1);
        }
      }
    }

    /** box_free, called by the reclaimer on a box it holds. */
    method Free(x: Box)
      requires Valid() && x in limbo
      modifies this, x
      ensures Valid() && View() == Apply(old(View()), Event.Free(x))
      ensures trace == old(trace) + [Event.Free(x)] && Gets(trace) == Gets(old(trace))
    {
      ghost var before := View();
      assert x !in chain by { assert x in before.out; }
      Push(x);
      limbo := limbo - {x};
      hide Replay, AllPossible, Sound, Linked, Gets;
      Record(before, Event.Free(x));
    }

    /** box_get. With the list empty it asks for memory, which may not be there. What it hands out
        counts as outstanding from here on, since it is retired next. */
    method Get(memory: bool) returns (x: Box?)
      requires Valid()
      modifies this
      ensures Valid()
      ensures x == null <==> old(chain) == [] && !memory
      ensures x == null ==> View() == old(View()) && trace == old(trace)
      ensures x != null ==>
                var e := Event.Get(x, old(chain) == []);
                && (e.isNew ==> fresh(x)) && Possible(old(View()), e)
                && View() == Apply(old(View()), e) && trace == old(trace) + [e]
                && Gets(trace) == Gets(old(trace)) + 1
    {
      ghost var before := View();
      hide Replay, AllPossible, Sound, Linked, Gets;
      x := Pop();
      if x != null {
        limbo := limbo + {x};
        Record(before, Event.Get(x, false));
      } else if memory {
        x := new Box();
        limbo, made := limbo + {x}, made + [x];
        Record(before, Event.Get(x, true));
      }
    }

    /** A collection: the reclaimer gives back as many of its boxes as it likes, in any order. */
    method Collect()
      requires Valid()
      modifies this, Boxes()
      ensures Valid() && made == old(made) && old(trace) <= trace && Gets(trace) == Gets(old(trace))
    {
      hide Gets;
      while *
        invariant Valid() && made == old(made) && old(trace) <= trace && Gets(trace) == Gets(old(trace))
        decreases limbo
      {
        if limbo == {} { break; }
        var x :| x in limbo;
        assert x in Boxes() by { assert x in View().out; }
        Free(x);
      }
    }

    /** retire_body: one box a pass goes out and is retired, with a collection whenever the
        reclaimer likes. `memory` says on which passes there is memory for a new box; the loop only
        stops early on one without. */
    method RetireBody(n: nat, memory: nat -> bool) returns (passes: nat)
      requires Valid()
      modifies this, Boxes()
      ensures Valid() && fresh(Boxes() - old(Boxes()))
      ensures Gets(trace) == Gets(old(trace)) + passes
      ensures passes == n || (passes < n && !memory(passes))
    {
      hide Linked, Recorded, Gets;
      passes := 0;
      while passes < n
        invariant Valid() && fresh(Boxes() - old(Boxes()))
        invariant passes <= n && Gets(trace) == Gets(old(trace)) + passes
      {
        var x := Get(memory(passes));
        if x == null { break; }
        Collect();
        passes := passes + 1;
      }
    }

    /** burrow__reclaim_drain: everything comes back. */
    method Drain()
      requires Valid()
      modifies this, Boxes()
      ensures Valid() && limbo == {} && made == old(made) && Gets(trace) == Gets(old(trace))
    {
      hide Gets;
      while limbo != {}
        invariant Valid() && made == old(made) && Gets(trace) == Gets(old(trace))
        decreases limbo
      {
        var x :| x in limbo;
        assert x in Boxes() by { assert x in View().out; }
        Free(x);
      }
    }

    /** The loop at the end of reclaim_retire, with the boxes in the order it frees them. */
    method FreeAll() returns (freed: seq<Box>)
      requires Linked()
      modifies `pool, `chain
      ensures pool == null && freed == old(chain)
    {
      hide Linked;
      freed := [];
      EmptyIffNull();
      while pool != null
        invariant Linked() && freed + chain == old(chain) && (pool == null <==> chain == [])
        decreases |chain|
      {
        var x := Pop();
        freed := freed + [x];
        EmptyIffNull();
      }
    }
  }

  /** The whole benchmark: as many boxes are made as are ever outstanding at once, and every one
      of them is freed, exactly once. */
  method ReclaimRetire(n: nat, memory: nat -> bool)
    returns (passes: nat, freed: seq<Box>, ghost made: seq<Box>, ghost trace: seq<Event<Box>>)
    ensures passes == n || (passes < n && !memory(passes))
    ensures AllPossible(trace) && Gets(trace) == passes
    ensures made == Replay(trace).made && |made| == HighWater(trace)
    ensures forall k :: 0 <= k <= |trace| ==> 2 * Gets(trace[..k]) - k <= |made|
    ensures exists k :: 0 <= k <= |trace| && 2 * Gets(trace[..k]) - k == |made|
    ensures Distinct(made) && Distinct(freed) && |freed| == |made|
    ensures forall x :: x in freed <==> x in made
  {
    hide BoxPool.Linked, Replay, AllPossible;
    var p := new BoxPool();
    passes := p.RetireBody(n, memory);
    p.Drain();
    made, trace := p.made, p.trace;
    AllocsAreHighWater(trace);
    MadeIsPeak(trace);
    freed := p.FreeAll();
  }
}

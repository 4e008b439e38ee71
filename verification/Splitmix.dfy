/** The operands of the big number benchmarks: splitmix64 and the words it fills
    (bench/big_bench.c). Arithmetic wraps at 2^64. */
module Splitmix {
  import opened Arithmetic
  import opened Words

  const GAMMA: nat := 0x9e3779b97f4a7c15
  const FACTOR1: nat := 0xbf58476d1ce4e5b9
  const FACTOR2: nat := 0x94d049bb133111eb

  /** Their inverses modulo 2^64, which they have because they are odd. */
  const GAMMA_INVERSE: nat := 0xf1de83e19937733d
  const INVERSE1: nat := 0x96de1b173f119089
  const INVERSE2: nat := 0x319642b2d24d8ec3

  function Fold(x: nat, s: nat): nat { Xor(x, Shr(x, s)) }
  function Scale(x: nat, factor: nat): nat { (x * factor) % TWO64 }

  /** The output for a state, after the state has been advanced. */
  function Mix(state: nat): nat {
    Fold(Scale(Fold(Scale(Fold(state, 30), FACTOR1), 27), FACTOR2), 31)
  }

  /** What undoes it. */
  function Unfold(y: nat, s: nat): nat { Xor(y, Xor(Shr(y, s), Shr(y, 2 * s))) }

  function Unmix(out: nat): nat {
    Unfold(Scale(Unfold(Scale(Unfold(out, 31), INVERSE2), 27), INVERSE1), 30)
  }

  /** A shift by more than a third of the width is undone with two shifts, since three lose everything. */
  lemma UnfoldFold(x: nat, s: nat)
    requires x < TWO64 && 64 <= 3 * s
    ensures Unfold(Fold(x, s), s) == x && Fold(x, s) < TWO64
  {
    var p, q := Shr(x, s), Shr(x, 2 * s);
    Pow2Word();
    ShrBound(x, s);
    BitsBound(x, p, 64);
    ShrXor(x, p, s);
    ShrShr(x, s, s);
    ShrXor(x, p, 2 * s);
    ShrShr(x, s, 2 * s);
    Pow2Monotone(64, 3 * s);
    ShrAll(x, 3 * s);
    XorZero(q);
    XorCancels(p, q);
    XorCancels(x, p);
  }

  /** Multiplying by an inverse undoes the wrap-around multiplication. */
  lemma UnscaleScale(x: nat, factor: nat, inverse: nat, t: nat)
    requires x < TWO64 && factor * inverse == t * TWO64 + 1
    ensures Scale(Scale(x, factor), inverse) == x && Scale(x, factor) < TWO64
  {
    var q := x * factor / TWO64;
    var y := Scale(x, factor);
    assert x * factor == q * TWO64 + y;
    calc {
      y * inverse;
      (x * factor - q * TWO64) * inverse;
      x * (factor * inverse) - (q * inverse) * TWO64;
      x * (t * TWO64 + 1) - (q * inverse) * TWO64;
      (x * t - q * inverse) * TWO64 + x;
    }
    DivisionIs(y * inverse, TWO64, x * t - q * inverse, x);
  }

  lemma Inverses()
    ensures FACTOR1 * INVERSE1 == (FACTOR1 * INVERSE1 / TWO64) * TWO64 + 1
    ensures FACTOR2 * INVERSE2 == (FACTOR2 * INVERSE2 / TWO64) * TWO64 + 1
    ensures GAMMA * GAMMA_INVERSE == (GAMMA * GAMMA_INVERSE / TWO64) * TWO64 + 1
  {
  }

  /** Mixing loses nothing, so different states give different outputs. */
  lemma UnmixMix(state: nat)
    requires state < TWO64
    ensures Unmix(Mix(state)) == state && Mix(state) < TWO64
  {
    hide Fold, Unfold, Scale;
    var a := Fold(state, 30);
    var b := Scale(a, FACTOR1);
    var c := Fold(b, 27);
    var d := Scale(c, FACTOR2);
    UnfoldFold(state, 30);
    Inverses();
    UnscaleScale(a, FACTOR1, INVERSE1, FACTOR1 * INVERSE1 / TWO64);
    UnfoldFold(b, 27);
    UnscaleScale(c, FACTOR2, INVERSE2, FACTOR2 * INVERSE2 / TWO64);
    UnfoldFold(d, 31);
  }

  function Advance(state: nat): nat { (state + GAMMA) % TWO64 }

  /** The state after k calls, and the k-th output counting from 0. */
  function StateAfter(seed: nat, k: nat): nat {
    if k == 0 then seed else Advance(StateAfter(seed, k - 1))
  }

  function Output(seed: nat, k: nat): nat {
    Mix(StateAfter(seed, k + 1))
  }

  lemma {:induction false} StateIs(seed: nat, k: nat)
    requires seed < TWO64
    ensures StateAfter(seed, k) == (seed + k * GAMMA) % TWO64
  {
    if k > 0 {
      StateIs(seed, k - 1);
      var before, after := seed + (k - 1) * GAMMA, seed + k * GAMMA;
      DivisionIs(before % TWO64 + GAMMA, TWO64, after / TWO64 - before / TWO64, after % TWO64);
    }
  }

  /** The increment is odd, so the states go through all 2^64 words before one comes back. */
  lemma StatesRepeatIff(seed: nat, j: nat, k: nat)
    requires seed < TWO64
    ensures StateAfter(seed, j) == StateAfter(seed, k) <==> j % TWO64 == k % TWO64
  {
    StateIs(seed, j);
    StateIs(seed, k);
    var u, v := seed + j * GAMMA, seed + k * GAMMA;
    if u % TWO64 == v % TWO64 {
      hide StateAfter;
      var w := u / TWO64 - v / TWO64;
      assert (j - k) * GAMMA == w * TWO64;
      var t := GAMMA * GAMMA_INVERSE / TWO64;
      Inverses();
      CancelFactor(j - k, GAMMA, GAMMA_INVERSE, t, w);
      DivisionIs(j, TWO64, k / TWO64 + w * GAMMA_INVERSE - (j - k) * t, k % TWO64);
    }
    if j % TWO64 == k % TWO64 {
      var w := j / TWO64 - k / TWO64;
      assert j == k + w * TWO64;
      assert u == v + (w * GAMMA) * TWO64;
      DivisionIs(u, TWO64, v / TWO64 + w * GAMMA, v % TWO64);
    }
  }

  /** From any seed, the first 2^64 outputs are pairwise different, and then they repeat. */
  lemma OutputsRepeatIff(seed: nat, j: nat, k: nat)
    requires seed < TWO64
    ensures Output(seed, j) == Output(seed, k) <==> j % TWO64 == k % TWO64
  {
    hide Mix, Unmix, Advance;
    StateIs(seed, j + 1);
    StateIs(seed, k + 1);
    UnmixMix(StateAfter(seed, j + 1));
    UnmixMix(StateAfter(seed, k + 1));
    StatesRepeatIff(seed, j + 1, k + 1);
    SameRemainder(j, k);
  }

  lemma SameRemainder(j: nat, k: nat)
    ensures j % TWO64 == k % TWO64 <==> (j + 1) % TWO64 == (k + 1) % TWO64
  {
  }

  /** The output for a state in numbers: two rounds of adding in, bit by bit, the state divided by a
      power of two and multiplying modulo 2^64, and a last one without the multiplication. */
  predicate IsMixed(state: nat, out: nat) {
    var a := Xor(state, state / 0x4000_0000) * 0xbf58_476d_1ce4_e5b9 % 0x1_0000_0000_0000_0000;
    var b := Xor(a, a / 0x800_0000) * 0x94d0_49bb_1331_11eb % 0x1_0000_0000_0000_0000;
    out == Xor(b, b / 0x8000_0000)
  }

  lemma ShiftPowers()
    ensures Pow2(27) == 0x800_0000 && Pow2(30) == 0x4000_0000 && Pow2(31) == 0x8000_0000
  {
    assert Pow2(3) == 8;
    Pow2Add(3, 3);
    Pow2Add(6, 6);
    Pow2Add(12, 12);
    Pow2Add(24, 3);
    Pow2Add(27, 3);
  }

  lemma MixIs(state: nat)
    ensures IsMixed(state, Mix(state))
  {
    hide Xor, Shr, Pow2;
    ShiftPowers();
    ShrDivides(state, 30);
    var a := Scale(Fold(state, 30), FACTOR1);
    ShrDivides(a, 27);
    var b := Scale(Fold(a, 27), FACTOR2);
    ShrDivides(b, 31);
  }

  /** The outputs in numbers, from the seed. */
  lemma OutputIs(seed: nat, k: nat)
    requires seed < TWO64
    ensures IsMixed((seed + (k + 1) * 0x9e37_79b9_7f4a_7c15) % 0x1_0000_0000_0000_0000, Output(seed, k))
  {
    hide Mix, IsMixed;
    StateIs(seed, k + 1);
    MixIs(StateAfter(seed, k + 1));
  }

  /** The generator, whose state the caller owns and each call advances. */
  class Generator {
    var state: nat

    constructor (seed: nat)
      requires seed < TWO64
      ensures state == seed
    {
      state := seed;
    }

    method Next() returns (z: nat)
      requires state < TWO64
      modifies this
      ensures state == Advance(old(state)) < TWO64 && z == Mix(state)
      ensures state == (old(state) + 0x9e37_79b9_7f4a_7c15) % 0x1_0000_0000_0000_0000
      ensures IsMixed(state, z)
    {
      MixIs((state + GAMMA) % TWO64);
      state := (state + GAMMA) % TWO64;
      z := state;
      z := Xor(z, Shr(z, 30)) * FACTOR1 % TWO64;
      z := Xor(z, Shr(z, 27)) * FACTOR2 % TWO64;
      z := Xor(z, Shr(z, 31));
    }
  }

  /** The number that words stand for, least significant first. */
  function Value(words: seq<nat>): nat {
    if words == [] then 0 else words[0] + TWO64 * Value(words[1..])
  }

  predicate AllWords(words: seq<nat>) {
    forall i :: 0 <= i < |words| ==> words[i] < TWO64
  }

  /** Read back word by word. */
  lemma ValueWords(words: seq<nat>)
    requires AllWords(words) && words != []
    ensures Value(words) % TWO64 == words[0] && Value(words) / TWO64 == Value(words[1..])
  {
    DivisionIs(Value(words), TWO64, Value(words[1..]), words[0]);
  }

  /** A number of n words whose top bit is set has exactly 64 n bits. */
  lemma {:induction false} ValueBits(words: seq<nat>)
    requires AllWords(words) && words != [] && words[|words| - 1] >= TWO63
    ensures Pow2(64 * |words| - 1) <= Value(words) < Pow2(64 * |words|)
  {
    Pow2Word();
    if |words| == 1 {
      assert words[1..] == [];
    } else {
      ValueBits(words[1..]);
      var n := |words| - 1;
      Pow2Add(64, 64 * n);
      Pow2Add(64, 64 * n - 1);
    }
  }

  /** rnd: n words of the generator with the top bit of the last one set, so that the number has
      exactly 64 n bits. */
  method Rnd(n: nat, seed: nat) returns (words: seq<nat>)
    requires 1 <= n && seed < TWO64
    ensures |words| == n && AllWords(words)
    ensures forall i :: 0 <= i < n - 1 ==> words[i] == Output(seed, i)
    ensures words[n - 1] == Or(Output(seed, n - 1), TWO63)
    ensures words[n - 1] >= TWO63 && words[n - 1] % TWO63 == Output(seed, n - 1) % TWO63
    ensures Pow2(64 * n - 1) <= Value(words) < Pow2(64 * n)
  {
    hide Mix, Or, Xor, Value, Advance;
    var w := new nat[n];
    var g := new Generator(seed);
    for i := 0 to n
      invariant fresh(g) && fresh(w) && g.state == StateAfter(seed, i) < TWO64
      invariant forall k :: 0 <= k < i ==> w[k] == Output(seed, k) < TWO64
    {
      w[i] := g.Next();
      UnmixMix(g.state);
    }
    Pow2Word();
    BitsBound(w[n - 1], TWO63, 64);
    OrTop(w[n - 1], 63);
    w[n - 1] := Or(w[n - 1], TWO63);
    words := w[..];
    ValueBits(words);
  }
}

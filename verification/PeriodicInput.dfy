/** Input of a given size made by repeating a file, whole or in one write per copy, in C and in Go
    (bench/lzw_bench.c, bench/flate_bench.c, go/lzw_test.go, go/flate_test.go). With an empty file
    none of the loops would end, so the file is not empty. */
module PeriodicInput {
  import opened Arithmetic
  import opened Sequences

  /** Byte j of the file repeated for ever. */
  function At<T>(src: seq<T>, j: nat): T
    requires src != []
  {
    if j < |src| then src[j] else At(src, j - |src|)
  }

  /** The first n bytes of that. */
  function Periodic<T>(src: seq<T>, n: nat): seq<T>
    requires src != []
  {
    seq(n, j requires 0 <= j < n => At(src, j))
  }

  /** In closed form. */
  lemma {:induction false} AtIsMod<T>(src: seq<T>, j: nat)
    requires src != []
    ensures At(src, j) == src[j % |src|]
  {
    if j >= |src| {
      var before := j - |src|;
      AtIsMod(src, before);
      assert j == (before / |src| + 1) * |src| + before % |src|;
      DivisionIs(j, |src|, before / |src| + 1, before % |src|);
    } else {
      DivisionIs(j, |src|, 0, j);
    }
  }

  /** A whole number of copies. */
  predicate Whole<T>(src: seq<T>, i: nat)
    requires src != []
  {
    i == 0 || (|src| <= i && Whole(src, i - |src|))
  }

  lemma {:induction false} AtWhole<T>(src: seq<T>, i: nat, j: nat)
    requires src != [] && Whole(src, i) && j < |src|
    ensures At(src, i + j) == src[j] && Whole(src, i + |src|)
  {
    if i > 0 {
      AtWhole(src, i - |src|, j);
      assert i + j - |src| == i - |src| + j;
    }
  }

  lemma PeriodicExtends<T>(src: seq<T>, i: nat, k: nat)
    requires src != [] && Whole(src, i) && k <= |src|
    ensures Periodic(src, i + k) == Periodic(src, i) + src[..k]
  {
    forall j | 0 <= j < k ensures At(src, i + j) == src[j] { AtWhole(src, i, j); }
    hide At;
    forall j | 0 <= j < i + k ensures Periodic(src, i + k)[j] == (Periodic(src, i) + src[..k])[j] {
      if j >= i { assert At(src, i + (j - i)) == src[j - i]; }
    }
  }

  lemma PeriodicLength<T>(src: seq<T>, n: nat)
    requires src != []
    ensures |Periodic(src, n)| == n && forall j :: 0 <= j < n ==> Periodic(src, n)[j] == At(src, j)
  {
  }

  /** The copies that make it up, the last one cut short. */
  function Chunks<T>(src: seq<T>, n: nat): seq<seq<T>>
    requires src != []
  {
    if n == 0 then [] else if n < |src| then [src[..n]] else [src] + Chunks(src, n - |src|)
  }

  /** One write per copy of the file: as many as it takes to reach n bytes and no more, every one but
      the last the whole file, and the last what is left. */
  predicate WritePerCopy<T(==)>(src: seq<T>, n: nat, writes: seq<seq<T>>) {
    var k := |writes|;
    && (if n == 0 then k == 0 else (k - 1) * |src| < n <= k * |src|)
    && (forall i :: 0 <= i < k - 1 ==> writes[i] == src)
    && (0 < k && 0 <= n - (k - 1) * |src| <= |src| ==> writes[k - 1] == src[..n - (k - 1) * |src|])
  }

  lemma {:induction false} ChunksPerCopy<T>(src: seq<T>, n: nat)
    requires src != []
    ensures WritePerCopy(src, n, Chunks(src, n))
  {
    if n >= |src| {
      var rest := Chunks(src, n - |src|);
      ChunksPerCopy(src, n - |src|);
      var k := |rest|;
      assert (k - 1) * |src| + |src| == k * |src| && k * |src| + |src| == (k + 1) * |src|;
      assert Chunks(src, n) == [src] + rest;
      assert src[..|src|] == src;
    }
  }

  lemma Regroup<T>(a: seq<T>, b: seq<T>, c: seq<T>)
    ensures a + (b + c) == (a + b) + c
  {
  }

  /** Cut into copies of the file, the stream goes on from any whole number of copies. */
  lemma {:induction false} ChunksArePeriodic<T>(src: seq<T>, i: nat, n: nat)
    requires src != [] && Whole(src, i)
    ensures Periodic(src, i) + Flatten(Chunks(src, n)) == Periodic(src, i + n)
    decreases n
  {
    hide At, Periodic, Whole, Flatten;
    if n == 0 {
      assert Flatten<T>([]) == [] by { FlattenNothing<T>(); }
    } else if n < |src| {
      FlattenNothing<T>();
      FlattenCons(src[..n], []);
      assert Chunks(src, n) == [src[..n]] + [];
      PeriodicExtends(src, i, n);
    } else {
      var rest := Chunks(src, n - |src|);
      AtWhole(src, i, 0);
      PeriodicExtends(src, i, |src|);
      assert src[..|src|] == src;
      FlattenCons(src, rest);
      Regroup(Periodic(src, i), src, Flatten(rest));
      ChunksArePeriodic(src, i + |src|, n - |src|);
    }
  }

  lemma FlattenNothing<T>()
    ensures Flatten<T>([]) == []
  {
  }

  /** All the writes of a file of size n together. */
  lemma WritesArePeriodic<T>(src: seq<T>, n: nat)
    requires src != []
    ensures Flatten(Chunks(src, n)) == Periodic(src, n)
  {
    ChunksArePeriodic(src, 0, n);
    assert Periodic(src, 0) == [];
  }

  /** sized_input in C: one copy of the file after the other, the last one cut. */
  method SizedInput<T(0)>(src: array<T>, n: nat) returns (out: seq<T>)
    requires src.Length > 0
    ensures out == Periodic(src[..], n)
    ensures |out| == n && forall j :: 0 <= j < n ==> out[j] == src[j % src.Length]
  {
    hide Periodic;
    var buffer := new T[n];
    var len := src.Length;
    var i := 0;
    ghost var whole := src[..];
    assert Periodic(whole, 0) == [] by { PeriodicLength(whole, 0); }
    while i < n
      invariant fresh(buffer) && src[..] == whole
      invariant i < n + len && (i <= n ==> Whole(whole, i))
      invariant buffer[..Min(i, n)] == Periodic(whole, Min(i, n))
    {
      var k := if n - i < len then n - i else len;
      ghost var before := buffer[..i];
      forall j | 0 <= j < k { buffer[i + j] := src[j]; }
      assert buffer[..i + k] == before + whole[..k];
      PeriodicExtends(whole, i, k);
      AtWhole(whole, i, 0);
      i := i + len;
    }
    out := buffer[..];
    PeriodicLength(whole, n);
    forall j | 0 <= j < n ensures out[j] == src[j % src.Length] { AtIsMod(whole, j); }
  }

  /** The copy at a whole number of copies is the start of the file. */
  lemma PeriodicSlice<T>(src: seq<T>, n: nat, i: nat, k: nat)
    requires src != [] && Whole(src, i) && i + k <= n && k <= |src|
    ensures |Periodic(src, n)| == n && Periodic(src, n)[i..i + k] == src[..k]
  {
    hide At, Whole, Periodic;
    PeriodicLength(src, n);
    forall j | 0 <= j < k ensures Periodic(src, n)[i..i + k][j] == src[..k][j] {
      AtWhole(src, i, j);
      assert Periodic(src, n)[i + j] == At(src, i + j);
    }
  }

  /** What is still to write when i bytes are written. */
  function Left(n: nat, i: nat): nat { if i < n then n - i else 0 }

  /** compressed_input in C: each write is the start of the file. */
  method CompressedInput<T(==)>(src: seq<T>, n: nat) returns (writes: seq<seq<T>>)
    requires src != []
    ensures WritePerCopy(src, n, writes) && writes == Chunks(src, n) && Flatten(writes) == Periodic(src, n)
  {
    hide Periodic, Flatten, WritePerCopy;
    var len := |src|;
    var i := 0;
    writes := [];
    while i < n
      invariant i >= 0 && writes + Chunks(src, Left(n, i)) == Chunks(src, n)
    {
      var k := if n - i < len then n - i else len;
      assert src[..len] == src;
      Regroup(writes, [src[..k]], Chunks(src, Left(n, i + len)));
      writes := writes + [src[..k]];
      i := i + len;
    }
    assert writes == Chunks(src, n);
    WritesArePeriodic(src, n);
    ChunksPerCopy(src, n);
  }

  /** The loop in decode of flate_bench.c: each write is taken from the sized input, in place. */
  method DecodeWrites<T(==)>(input: seq<T>, fileLen: nat, ghost src: seq<T>, n: nat) returns (writes: seq<seq<T>>)
    requires src != [] && fileLen == |src| && input == Periodic(src, n)
    ensures WritePerCopy(src, n, writes) && writes == Chunks(src, n) && Flatten(writes) == input
  {
    hide At, Periodic, Flatten, Whole, WritePerCopy;
    var i := 0;
    writes := [];
    assert Whole(src, 0) by { NoneIsWhole(src); }
    PeriodicLength(src, n);
    while i < n
      invariant i >= 0 && Whole(src, i)
      invariant writes + Chunks(src, Left(n, i)) == Chunks(src, n)
    {
      var k := if n - i < fileLen then n - i else fileLen;
      PeriodicSlice(src, n, i, k);
      assert src[..fileLen] == src;
      Regroup(writes, [src[..k]], Chunks(src, Left(n, i + fileLen)));
      writes := writes + [input[i..i + k]];
      AtWhole(src, i, 0);
      i := i + fileLen;
    }
    assert writes == Chunks(src, n);
    WritesArePeriodic(src, n);
    ChunksPerCopy(src, n);
  }

  lemma NoneIsWhole<T>(src: seq<T>)
    requires src != []
    ensures Whole(src, 0)
  {
  }

  /** lzwInputBuf and flateDecode in Go: the slice itself is cut for the last write, and i advances by
      what is left of it. */
  method ShrinkingWrites<T(==)>(src: seq<T>, n: nat) returns (writes: seq<seq<T>>)
    requires src != []
    ensures WritePerCopy(src, n, writes) && writes == Chunks(src, n) && Flatten(writes) == Periodic(src, n)
  {
    hide Periodic, Flatten, WritePerCopy;
    var buf := src;
    var i := 0;
    writes := [];
    while i < n
      invariant 0 <= i <= n && (i < n ==> buf == src)
      invariant writes + Chunks(src, n - i) == Chunks(src, n)
    {
      if |buf| > n - i {
        buf := buf[..n - i];
      }
      assert Chunks(src, n - i) == [buf] + Chunks(src, n - i - |buf|);
      Regroup(writes, [buf], Chunks(src, n - i - |buf|));
      writes := writes + [buf];
      i := i + |buf|;
    }
    assert writes == Chunks(src, n);
    WritesArePeriodic(src, n);
    ChunksPerCopy(src, n);
  }

  /** lzwSized and flateEncode in Go: the buffer is filled by the same shrinking slice. */
  method ShrinkingFill<T(0)>(src: seq<T>, n: nat) returns (buf1: array<T>)
    requires src != []
    ensures fresh(buf1) && buf1[..] == Periodic(src, n)
    ensures buf1.Length == n && forall j :: 0 <= j < n ==> buf1[j] == src[j % |src|]
  {
    hide At, Periodic, Whole;
    buf1 := new T[n];
    var buf0 := src;
    var i := 0;
    NoneIsWhole(src);
    PeriodicLength(src, 0);
    while i < n
      invariant 0 <= i <= n && (i < n ==> buf0 == src && Whole(src, i))
      invariant fresh(buf1) && buf1[..i] == Periodic(src, i)
    {
      if |buf0| > n - i {
        buf0 := buf0[..n - i];
      }
      var k := |buf0|;
      ghost var before := buf1[..i];
      forall j | 0 <= j < k { buf1[i + j] := buf0[j]; }
      assert buf1[..i + k] == before + buf0;
      assert buf0 == src[..k];
      PeriodicExtends(src, i, k);
      AtWhole(src, i, 0);
      i := i + k;
    }
    PeriodicLength(src, n);
    forall j | 0 <= j < n ensures buf1[j] == src[j % |src|] {
      AtIsMod(src, j);
      assert buf1[j] == buf1[..][j];
    }
  }
}

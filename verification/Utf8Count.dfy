/** Counting characters by counting the bytes that do not continue one (bench/utf8_bench.c). What
    a valid string is follows section 4 of RFC 3629. */
module Utf8Count {
  import opened Sequences

  type byte = bv8

  predicate Tail(b: byte) { 0x80 <= b <= 0xBF }

  predicate Tails(c: seq<byte>) { forall i :: 1 <= i < |c| ==> Tail(c[i]) }

  /** How the lead byte bounds the one after it. */
  predicate Lead2(a: byte) { 0xC2 <= a <= 0xDF }

  predicate Lead3(a: byte, b: byte) {
    || (a == 0xE0 && b >= 0xA0)
    || 0xE1 <= a <= 0xEC
    || (a == 0xED && b <= 0x9F)
    || 0xEE <= a <= 0xEF
  }

  predicate Lead4(a: byte, b: byte) {
    || (a == 0xF0 && b >= 0x90)
    || 0xF1 <= a <= 0xF3
    || (a == 0xF4 && b <= 0x8F)
  }

  /** UTF8-char of the grammar: UTF8-1, UTF8-2, UTF8-3 or UTF8-4. */
  predicate IsChar(c: seq<byte>) {
    && Tails(c)
    && match |c|
       case 1 => c[0] <= 0x7F
       case 2 => Lead2(c[0])
       case 3 => Lead3(c[0], c[1])
       case 4 => Lead4(c[0], c[1])
       case _ => false
  }

  /** A Unicode scalar value: a code point that is no surrogate. */
  predicate Scalar(u: bv32) { u <= 0x10FFFF && !(0xD800 <= u <= 0xDFFF) }

  /** The low six bits of what is left of a scalar value, as a continuation byte. */
  function TailOf(u: bv32): byte { 0x80 | ((u & 0x3F) as byte) }

  /** Encoding by the table of section 3 of RFC 3629. */
  function Encode(u: bv32): seq<byte>
    requires Scalar(u)
  {
    if u <= 0x7F then [u as byte]
    else if u <= 0x7FF then [0xC0 | ((u >> 6) as byte), TailOf(u)]
    else if u <= 0xFFFF then [0xE0 | ((u >> 12) as byte), TailOf(u >> 6), TailOf(u)]
    else [0xF0 | ((u >> 18) as byte), TailOf(u >> 12), TailOf(u >> 6), TailOf(u)]
  }

  /** What the bytes of a character of two, three or four bytes stand for. */
  function SixBits(b: byte): bv32 { (b & 0x3F) as bv32 }
  function Join2(a: byte, b: byte): bv32 { (((a & 0x1F) as bv32) << 6) | SixBits(b) }
  function Join3(a: byte, b: byte, c: byte): bv32 {
    (((a & 0x0F) as bv32) << 12) | (SixBits(b) << 6) | SixBits(c)
  }
  function Join4(a: byte, b: byte, c: byte, d: byte): bv32 {
    (((a & 0x07) as bv32) << 18) | (SixBits(b) << 12) | (SixBits(c) << 6) | SixBits(d)
  }

  function Decode(c: seq<byte>): bv32 {
    match |c|
    case 1 => c[0] as bv32
    case 2 => Join2(c[0], c[1])
    case 3 => Join3(c[0], c[1], c[2])
    case 4 => Join4(c[0], c[1], c[2], c[3])
    case _ => 0
  }

  lemma TailOfIsTail(u: bv32)
    ensures Tail(TailOf(u))
  {
  }

  lemma Encode2(u: bv32)
    requires 0x80 <= u <= 0x7FF
    ensures var a := 0xC0 | ((u >> 6) as byte); Lead2(a) && Join2(a, TailOf(u)) == u
  {
  }

  lemma Encode3(u: bv32)
    requires Scalar(u) && 0x800 <= u <= 0xFFFF
    ensures var a, b := 0xE0 | ((u >> 12) as byte), TailOf(u >> 6);
            Lead3(a, b) && Join3(a, b, TailOf(u)) == u
  {
  }

  lemma Encode4(u: bv32)
    requires 0x10000 <= u <= 0x10FFFF
    ensures var a, b := 0xF0 | ((u >> 18) as byte), TailOf(u >> 12);
            Lead4(a, b) && Join4(a, b, TailOf(u >> 6), TailOf(u)) == u
  {
  }

  lemma EncodeIsChar(u: bv32)
    requires Scalar(u)
    ensures IsChar(Encode(u)) && Decode(Encode(u)) == u
  {
    hide TailOf, Tail, Join2, Join3, Join4;
    TailOfIsTail(u);
    TailOfIsTail(u >> 6);
    TailOfIsTail(u >> 12);
    if u <= 0x7F {
    } else if u <= 0x7FF {
      Encode2(u);
    } else if u <= 0xFFFF {
      Encode3(u);
    } else {
      Encode4(u);
    }
  }

  lemma Decode2(a: byte, b: byte)
    requires Lead2(a) && Tail(b)
    ensures var u := Join2(a, b);
            0x80 <= u <= 0x7FF && a == 0xC0 | ((u >> 6) as byte) && b == TailOf(u)
  {
  }

  lemma Decode3(a: byte, b: byte, c: byte)
    requires Lead3(a, b) && Tail(b) && Tail(c)
    ensures var u := Join3(a, b, c);
            Scalar(u) && 0x800 <= u <= 0xFFFF && a == 0xE0 | ((u >> 12) as byte) && b == TailOf(u >> 6) && c == TailOf(u)
  {
  }

  lemma Decode4(a: byte, b: byte, c: byte, d: byte)
    requires Lead4(a, b) && Tail(b) && Tail(c) && Tail(d)
    ensures var u := Join4(a, b, c, d);
            && 0x10000 <= u <= 0x10FFFF && a == 0xF0 | ((u >> 18) as byte)
            && b == TailOf(u >> 12) && c == TailOf(u >> 6) && d == TailOf(u)
  {
  }

  lemma EncodeTwo(u: bv32, a: byte, b: byte)
    requires 0x80 <= u <= 0x7FF && a == 0xC0 | ((u >> 6) as byte) && b == TailOf(u)
    ensures Scalar(u) && Encode(u) == [a, b]
  {
    hide TailOf;
  }

  lemma EncodeThree(u: bv32, a: byte, b: byte, c: byte)
    requires Scalar(u) && 0x800 <= u <= 0xFFFF
    requires a == 0xE0 | ((u >> 12) as byte) && b == TailOf(u >> 6) && c == TailOf(u)
    ensures Encode(u) == [a, b, c]
  {
    hide TailOf;
  }

  lemma EncodeFour(u: bv32, a: byte, b: byte, c: byte, d: byte)
    requires 0x10000 <= u <= 0x10FFFF && a == 0xF0 | ((u >> 18) as byte)
    requires b == TailOf(u >> 12) && c == TailOf(u >> 6) && d == TailOf(u)
    ensures Scalar(u) && Encode(u) == [a, b, c, d]
  {
    hide TailOf;
  }

  lemma DecodesOne(a: byte)
    requires a <= 0x7F
    ensures Scalar(a as bv32) && Encode(a as bv32) == [a]
  {
  }

  lemma DecodesTwo(a: byte, b: byte)
    requires Lead2(a) && Tail(b)
    ensures Scalar(Join2(a, b)) && Encode(Join2(a, b)) == [a, b]
  {
    hide TailOf, Tail, Join2, Lead2, Encode, Scalar;
    Decode2(a, b);
    EncodeTwo(Join2(a, b), a, b);
  }

  lemma DecodesThree(a: byte, b: byte, c: byte)
    requires Lead3(a, b) && Tail(b) && Tail(c)
    ensures Scalar(Join3(a, b, c)) && Encode(Join3(a, b, c)) == [a, b, c]
  {
    hide TailOf, Tail, Join3, Lead3, Encode, Scalar;
    Decode3(a, b, c);
    EncodeThree(Join3(a, b, c), a, b, c);
  }

  lemma DecodesFour(a: byte, b: byte, c: byte, d: byte)
    requires Lead4(a, b) && Tail(b) && Tail(c) && Tail(d)
    ensures Scalar(Join4(a, b, c, d)) && Encode(Join4(a, b, c, d)) == [a, b, c, d]
  {
    hide TailOf, Tail, Join4, Lead4, Encode, Scalar;
    Decode4(a, b, c, d);
    EncodeFour(Join4(a, b, c, d), a, b, c, d);
  }

  lemma CharDecodes(c: seq<byte>)
    requires IsChar(c)
    ensures Scalar(Decode(c)) && Encode(Decode(c)) == c
  {
    hide Tail, Join2, Join3, Join4, Lead2, Lead3, Lead4, Scalar, Encode;
    if |c| == 1 {
      DecodesOne(c[0]);
      assert c == [c[0]];
    } else if |c| == 2 {
      DecodesTwo(c[0], c[1]);
      assert c == [c[0], c[1]];
    } else if |c| == 3 {
      DecodesThree(c[0], c[1], c[2]);
      assert c == [c[0], c[1], c[2]];
    } else {
      DecodesFour(c[0], c[1], c[2], c[3]);
      assert c == [c[0], c[1], c[2], c[3]];
    }
  }

  /** The grammar's characters are the encodings of the scalar values, one each. */
  lemma CharIffEncodes(c: seq<byte>)
    ensures IsChar(c) <==> exists u :: Scalar(u) && Encode(u) == c
    ensures forall u, v :: Scalar(u) && Scalar(v) && Encode(u) == c && Encode(v) == c ==> u == v
  {
    if IsChar(c) {
      CharDecodes(c);
    }
    forall u | Scalar(u) && Encode(u) == c ensures IsChar(c) && Decode(c) == u {
      EncodeIsChar(u);
    }
  }

  /** The characters a string is made of, if it is valid. */
  predicate Chars(chars: seq<seq<byte>>) {
    forall i :: 0 <= i < |chars| ==> IsChar(chars[i])
  }

  ghost predicate Valid(s: seq<byte>) {
    exists chars :: Chars(chars) && Flatten(chars) == s
  }

  /** The first byte of a character tells how long it is. */
  function LengthFrom(b: byte): nat {
    if b <= 0x7F then 1 else if b <= 0xDF then 2 else if b <= 0xEF then 3 else 4
  }

  lemma CharLength(c: seq<byte>)
    requires IsChar(c)
    ensures |c| == LengthFrom(c[0]) && !Tail(c[0])
  {
  }

  /** There is only one way to take a string apart into characters. */
  lemma {:induction false} CharsAreUnique(a: seq<seq<byte>>, b: seq<seq<byte>>)
    requires Chars(a) && Chars(b) && Flatten(a) == Flatten(b)
    ensures a == b
  {
    if a != [] && b != [] {
      CharLength(a[0]);
      CharLength(b[0]);
      assert a[0][0] == Flatten(a)[0] == Flatten(b)[0] == b[0][0];
      assert a[0] == Flatten(a)[..|a[0]|] && b[0] == Flatten(b)[..|b[0]|];
      assert Flatten(a[1..]) == Flatten(a)[|a[0]|..] && Flatten(b[1..]) == Flatten(b)[|b[0]|..];
      CharsAreUnique(a[1..], b[1..]);
      assert a == [a[0]] + a[1..] && b == [b[0]] + b[1..];
    } else {
      if a != [] { CharLength(a[0]); }
      if b != [] { CharLength(b[0]); }
    }
  }

  /** The loop's test, and how many bytes pass it. */
  predicate Counts(b: byte) { (b & 0xC0) != 0x80 }

  function RawCount(s: seq<byte>): nat {
    if s == [] then 0 else RawCount(s[..|s| - 1]) + if Counts(s[|s| - 1]) then 1 else 0
  }

  lemma CountsIffNotTail(b: byte)
    ensures Counts(b) <==> !Tail(b)
  {
  }

  lemma {:induction false} RawCountConcat(a: seq<byte>, b: seq<byte>)
    ensures RawCount(a + b) == RawCount(a) + RawCount(b)
  {
    if b == [] {
      assert a + b == a;
    } else {
      RawCountConcat(a, b[..|b| - 1]);
      assert (a + b)[..|a + b| - 1] == a + b[..|b| - 1];
    }
  }

  lemma {:induction false} OnePerChar(c: seq<byte>)
    requires c != [] && Counts(c[0]) && forall i :: 1 <= i < |c| ==> !Counts(c[i])
    ensures RawCount(c) == 1
  {
    if |c| > 1 {
      OnePerChar(c[..|c| - 1]);
    } else {
      assert c[..|c| - 1] == [];
    }
  }

  lemma CountOneChar(c: seq<byte>)
    requires IsChar(c)
    ensures RawCount(c) == 1
  {
    CharLength(c);
    forall i | 0 <= i < |c| ensures Counts(c[i]) <==> i == 0 { CountsIffNotTail(c[i]); }
    OnePerChar(c);
  }

  /** On a valid string the raw loop counts the characters. */
  lemma {:induction false} RawCountsChars(chars: seq<seq<byte>>)
    requires Chars(chars)
    ensures RawCount(Flatten(chars)) == |chars|
  {
    if chars != [] {
      var c := chars[0];
      CountOneChar(c);
      RawCountsChars(chars[1..]);
      RawCountConcat(c, Flatten(chars[1..]));
    }
  }

  /** The loop of utf8_rune_count_long_raw. */
  method CountRaw(s: seq<byte>) returns (n: nat)
    ensures n == RawCount(s)
    ensures forall chars :: Chars(chars) && Flatten(chars) == s ==> n == |chars|
  {
    n := 0;
    for i := 0 to |s|
      invariant n == RawCount(s[..i])
    {
      assert s[..i + 1][..i] == s[..i];
      if (s[i] & 0xC0) != 0x80 {
        n := n + 1;
      }
    }
    assert s[..|s|] == s;
    forall chars | Chars(chars) && Flatten(chars) == s ensures n == |chars| { RawCountsChars(chars); }
  }

  /** How long the character at the front of a string is, or 0 if none is there. */
  function CharSize(s: seq<byte>): nat {
    if 1 <= |s| && IsChar(s[..1]) then 1
    else if 2 <= |s| && IsChar(s[..2]) then 2
    else if 3 <= |s| && IsChar(s[..3]) then 3
    else if 4 <= |s| && IsChar(s[..4]) then 4
    else 0
  }

  function Width(s: seq<byte>): (w: nat)
    requires s != []
    ensures 1 <= w <= |s|
  {
    if CharSize(s) > 0 then CharSize(s) else 1
  }

  /** Counting runes in any bytes at all: a character where one starts, and a single byte, read as a
      replacement, where none does. This is what Go's utf8.RuneCountInString counts. */
  function RuneCount(s: seq<byte>): nat {
    if s == [] then 0 else 1 + RuneCount(s[Width(s)..])
  }

  /** The continuation bytes that belong to no character. */
  function Strays(s: seq<byte>): nat {
    if s == [] then 0 else (if CharSize(s) == 0 && Tail(s[0]) then 1 else 0) + Strays(s[Width(s)..])
  }

  /** On any bytes, the raw loop and the rune count differ by the stray continuation bytes, and so
      agree exactly when there are none. */
  lemma {:induction false} RawCountMissesStrays(s: seq<byte>)
    ensures RawCount(s) + Strays(s) == RuneCount(s)
    ensures RawCount(s) == RuneCount(s) <==> Strays(s) == 0
  {
    if s != [] {
      var w := Width(s);
      var front, rest := s[..w], s[w..];
      RawCountMissesStrays(rest);
      assert s == front + rest;
      RawCountConcat(front, rest);
      FrontCount(s);
    }
  }

  lemma FrontCount(s: seq<byte>)
    requires s != []
    ensures RawCount(s[..Width(s)]) == if CharSize(s) == 0 && Tail(s[0]) then 0 else 1
  {
    var c := s[..Width(s)];
    if CharSize(s) > 0 {
      assert IsChar(c);
      CountOneChar(c);
    } else {
      CountsIffNotTail(s[0]);
      assert c == [s[0]] && c[..0] == [];
    }
  }

  lemma OneSize(c: seq<byte>, rest: seq<byte>)
    requires IsChar(c)
    ensures CharSize(c + rest) == |c|
  {
    var s := c + rest;
    assert s[..|c|] == c;
    CharLength(c);
    var k := CharSize(s);
    if k > 0 {
      assert IsChar(s[..k]);
      CharLength(s[..k]);
      assert s[..k][0] == c[0];
    }
  }

  /** The rune count goes by characters where there are any and by bytes where there are none. */
  lemma RuneCountSteps(s: seq<byte>, k: nat)
    requires 1 <= |s| && k <= |s|
    ensures IsChar(s[..k]) ==> RuneCount(s) == 1 + RuneCount(s[k..])
    ensures (forall j :: 0 <= j <= |s| ==> !IsChar(s[..j])) ==> RuneCount(s) == 1 + RuneCount(s[1..])
  {
    if IsChar(s[..k]) {
      OneSize(s[..k], s[k..]);
      assert s[..k] + s[k..] == s;
    }
    if forall j :: 0 <= j <= |s| ==> !IsChar(s[..j]) {
      assert CharSize(s) == 0;
    }
  }

  /** On a valid string it counts the characters too, and there are no strays. */
  lemma {:induction false} RuneCountsChars(chars: seq<seq<byte>>)
    requires Chars(chars)
    ensures RuneCount(Flatten(chars)) == |chars| && Strays(Flatten(chars)) == 0
  {
    if chars != [] {
      var rest := Flatten(chars[1..]);
      OneSize(chars[0], rest);
      RuneCountsChars(chars[1..]);
      assert (chars[0] + rest)[|chars[0]|..] == rest;
    }
  }

  /** A continuation byte on its own is a rune that the raw loop does not count. */
  lemma LoneTailIsNotCounted()
    ensures RawCount([0x80]) == 0 && RuneCount([0x80]) == 1
  {
    var s: seq<byte> := [0x80];
    assert s[..0] == [] && s[1..] == [];
    assert !IsChar(s[..1]);
  }
}

/** The text of HTML tokens that the string searches walk through (bench/strings_bench.c). */
module HardInput {
  import opened Arithmetic
  import opened Sequences
  import opened Words

  const HARD_LEN: nat := 0x10_0000

  const TOKENS: seq<string> :=
    ["<a>", "<p>", "<b>", "<strong>", "</a>", "</p>", "</b>", "</strong>", "hello", "world"]

  /** What is true of a text at position i if it is put together from tokens: no blank is there, and
      a bracket that opens there is followed by its tag, which is not p followed by more. */
  predicate CleanAt(text: string, i: nat)
    requires i < |text|
  {
    && text[i] != ' '
    && (text[i] == '<' ==>
          && i + 2 < |text| && text[i + 1] != '>'
          && (text[i + 1] == '/' && text[i + 2] == 'p' ==> i + 3 < |text| && text[i + 3] == '>'))
  }

  predicate Clean(text: string) {
    forall i :: 0 <= i < |text| ==> CleanAt(text, i)
  }

  /** Every token is clean by itself. */
  lemma TokensClean(k: nat)
    requires k < 10
    ensures 3 <= |TOKENS[k]| <= 9 && Clean(TOKENS[k])
  {
    assert Clean("<a>") && Clean("<p>") && Clean("<b>");
    assert Clean("<strong>");
    assert Clean("</a>") && Clean("</p>") && Clean("</b>");
    assert Clean("</strong>");
    assert Clean("hello") && Clean("world");
    hide Clean;
  }

  lemma CleanConcat(a: string, b: string)
    requires Clean(a) && Clean(b)
    ensures Clean(a + b)
  {
    forall i | 0 <= i < |a + b| ensures CleanAt(a + b, i) {
      if i < |a| {
        assert CleanAt(a, i);
      } else {
        assert CleanAt(b, i - |a|);
      }
    }
  }

  /** So is any number of them in a row. */
  lemma {:induction false} TextClean(pieces: seq<string>)
    requires forall i :: 0 <= i < |pieces| ==> pieces[i] in TOKENS
    ensures Clean(Flatten(pieces))
  {
    if pieces != [] {
      var k :| 0 <= k < 10 && TOKENS[k] == pieces[0];
      TokensClean(k);
      TextClean(pieces[1..]);
      CleanConcat(pieces[0], Flatten(pieces[1..]));
    }
  }

  predicate OccursAt(needle: string, text: string, i: nat) {
    i + |needle| <= |text| && text[i..i + |needle|] == needle
  }

  predicate Occurs(needle: string, text: string) {
    exists i: nat | i <= |text| :: OccursAt(needle, text, i)
  }

  lemma NoEmptyTag(text: string, i: nat)
    requires Clean(text)
    ensures !OccursAt("<>", text, i)
  {
    if i + 2 <= |text| {
      var w := text[i..i + 2];
      assert w[0] == text[i] && w[1] == text[i + 1];
      assert CleanAt(text, i);
    }
  }

  lemma NoPre(text: string, i: nat)
    requires Clean(text)
    ensures !OccursAt("</pre>", text, i)
  {
    if i + 6 <= |text| {
      var w := text[i..i + 6];
      assert w[0] == text[i] && w[1] == text[i + 1] && w[2] == text[i + 2] && w[3] == text[i + 3];
      assert CleanAt(text, i);
    }
  }

  lemma NoGreeting(text: string, i: nat)
    requires Clean(text)
    ensures !OccursAt("<b>hello world</b>", text, i)
  {
    if i + 18 <= |text| {
      assert text[i..i + 18][8] == text[i + 8];
      assert CleanAt(text, i + 8);
    }
  }

  /** The three needles of the searches do not occur, not even across token boundaries, so every
      search goes through the whole text. */
  lemma NeedlesAbsent(pieces: seq<string>)
    requires forall i :: 0 <= i < |pieces| ==> pieces[i] in TOKENS
    ensures !Occurs("<>", Flatten(pieces))
    ensures !Occurs("</pre>", Flatten(pieces))
    ensures !Occurs("<b>hello world</b>", Flatten(pieces))
  {
    var text := Flatten(pieces);
    TextClean(pieces);
    forall i: nat
      ensures !OccursAt("<>", text, i) && !OccursAt("</pre>", text, i) && !OccursAt("<b>hello world</b>", text, i)
    {
      NoEmptyTag(text, i);
      NoPre(text, i);
      NoGreeting(text, i);
    }
  }

  /** The inverses of 2^13 - 1 and 2^17 - 1 modulo 2^64. */
  const INVERSE13: nat := 0xffefff7ffbffdfff
  const INVERSE17: nat := 0xfff7fffbfffdffff

  function XorShift(r: nat): nat {
    var a := Xor(r, Shl(r, 13));
    var b := Xor(a, Shr(a, 7));
    Xor(b, Shl(b, 17))
  }

  lemma WordPowers()
    ensures Pow2(13) == 8192 && Pow2(17) == 131072 && Pow2(64) == TWO64
  {
    Pow2Word();
    assert Pow2(4) == 16;
    Pow2Add(4, 4);
    Pow2Add(4, 1);
    Pow2Add(8, 5);
    Pow2Add(13, 4);
  }

  /** A shift to the left changes every word but 0: 2^s - 1 is odd and so has an inverse. */
  lemma ShlMoves(x: nat, s: nat, inverse: nat, t: nat)
    requires x < TWO64 && Shl(x, s) == x && (Pow2(s) - 1) * inverse == t * TWO64 + 1
    ensures x == 0
  {
    var p := Pow2(s);
    var w := x * p / TWO64;
    assert x * p == w * TWO64 + x;
    assert x * (p - 1) == w * TWO64;
    CancelFactor(x, p - 1, inverse, t, w);
  }

  lemma Shl13Moves(x: nat)
    requires x < TWO64 && Shl(x, 13) == x
    ensures x == 0
  {
    hide Shl, Pow2;
    WordPowers();
    ShlMoves(x, 13, INVERSE13, 8191 * INVERSE13 / TWO64);
  }

  lemma Shl17Moves(x: nat)
    requires x < TWO64 && Shl(x, 17) == x
    ensures x == 0
  {
    hide Shl, Pow2;
    WordPowers();
    ShlMoves(x, 17, INVERSE17, 131071 * INVERSE17 / TWO64);
  }

  lemma ShlBound(x: nat, s: nat)
    ensures Shl(x, s) < TWO64
  {
  }

  /** The generator stays within words and never gets to 0, from where it would not come back. */
  lemma XorShiftNonzero(r: nat)
    requires 0 < r < TWO64
    ensures 0 < XorShift(r) < TWO64
  {
    hide Xor, Shr, Shl, Pow2;
    Pow2Word();
    var a := Xor(r, Shl(r, 13));
    var b := Xor(a, Shr(a, 7));
    ShlBound(r, 13);
    ShlBound(b, 17);
    BitsBound(r, Shl(r, 13), 64);
    ShrBound(a, 7);
    BitsBound(a, Shr(a, 7), 64);
    BitsBound(b, Shl(b, 17), 64);
    if a == 0 {
      XorSame(r, Shl(r, 13));
      Shl13Moves(r);
    } else if b == 0 {
      XorSame(a, Shr(a, 7));
      ShrSmaller(a, 7);
    } else if XorShift(r) == 0 {
      XorSame(b, Shl(b, 17));
      Shl17Moves(b);
    }
  }

  /** The state before the i-th of those after `r`. */
  function Before(r: nat, states: seq<nat>, i: nat): nat
    requires i <= |states|
  {
    if i == 0 then r else states[i - 1]
  }

  /** The states that a generator goes through after `r`. */
  ghost predicate Follows(step: nat -> nat, r: nat, states: seq<nat>) {
    forall i :: 0 <= i < |states| ==> states[i] == step(Before(r, states, i))
  }

  lemma FollowsSnoc(step: nat -> nat, r: nat, states: seq<nat>)
    requires Follows(step, r, states)
    ensures Follows(step, r, states + [step(Before(r, states, |states|))])
  {
    var more := states + [step(Before(r, states, |states|))];
    forall i | 0 <= i < |more| ensures more[i] == step(Before(r, more, i)) {
      assert Before(r, more, i) == Before(r, states, i);
    }
  }

  lemma FollowsPrefix(step: nat -> nat, r: nat, states: seq<nat>, k: nat)
    requires Follows(step, r, states) && k <= |states|
    ensures Follows(step, r, states[..k])
  {
    forall i | 0 <= i < k ensures states[..k][i] == step(Before(r, states[..k], i)) {
      assert states[..k][i] == states[i] && Before(r, states[..k], i) == Before(r, states, i);
    }
  }

  lemma {:induction false} StatesNonzero(r: nat, states: seq<nat>)
    requires 0 < r < TWO64 && Follows(XorShift, r, states)
    ensures forall i :: 0 <= i < |states| ==> 0 < states[i] < TWO64
  {
    hide XorShift;
    if states != [] {
      var k := |states| - 1;
      FollowsPrefix(XorShift, r, states, k);
      StatesNonzero(r, states[..k]);
      assert k > 0 ==> states[k - 1] == states[..k][k - 1];
      XorShiftNonzero(Before(r, states, k));
      assert states[k] == XorShift(Before(r, states, k));
      assert forall i :: 0 <= i < k ==> states[i] == states[..k][i];
    }
  }

  /** A step of the generator in numbers: adding in, bit by bit, the state times 2^13 modulo 2^64, then
      what that makes divided by 2^7, then that times 2^17 modulo 2^64. */
  predicate IsShifted(r: nat, out: nat) {
    var a := Xor(r, r * 8192 % 0x1_0000_0000_0000_0000);
    var b := Xor(a, a / 128);
    out == Xor(b, b * 131072 % 0x1_0000_0000_0000_0000)
  }

  lemma XorShiftIs(r: nat)
    ensures IsShifted(r, XorShift(r))
  {
    hide Xor, Shr;
    WordPowers();
    assert Pow2(7) == 128;
    ShrDivides(Xor(r, Shl(r, 13)), 7);
    hide Pow2;
  }

  /** Which token a state picks. */
  predicate Picks(r: nat, t: string) {
    match r % 10
    case 0 => t == "<a>"
    case 1 => t == "<p>"
    case 2 => t == "<b>"
    case 3 => t == "<strong>"
    case 4 => t == "</a>"
    case 5 => t == "</p>"
    case 6 => t == "</b>"
    case 7 => t == "</strong>"
    case 8 => t == "hello"
    case _ => t == "world"
  }

  lemma PickToken(r: nat)
    ensures Picks(r, TOKENS[r % 10]) && TOKENS[r % 10] in TOKENS
    ensures forall t :: Picks(r, t) ==> t == TOKENS[r % 10]
  {
  }

  /** The text is the pieces that the states pick, and what the last state picks would have been too
      much. */
  ghost predicate IsBuilt(step: nat -> nat, r0: nat, states: seq<nat>, pieces: seq<string>, text: string) {
    && Follows(step, r0, states) && |states| == |pieces| + 1
    && (forall i :: 0 <= i < |pieces| ==> Picks(states[i], pieces[i]))
    && text == Flatten(pieces) && 1_048_567 <= |text| <= 1_048_575
    && (forall t :: Picks(states[|pieces|], t) ==> |text| + |t| >= 1_048_576)
  }

  /** memcpy of a token to the end of what is there. */
  method Append(x: array<char>, n: nat, t: string)
    requires n + |t| <= x.Length
    modifies x
    ensures x[..n + |t|] == old(x[..n]) + t
  {
    forall j | 0 <= j < |t| { x[n + j] := t[j]; }
  }

  /** build_hard with any generator; the benchmark's is XorShift from 99. */
  method BuildHard(step: nat -> nat, r0: nat) returns (text: string, ghost states: seq<nat>, ghost pieces: seq<string>)
    ensures IsBuilt(step, r0, states, pieces, text)
    ensures !Occurs("<>", text) && !Occurs("</pre>", text) && !Occurs("<b>hello world</b>", text)
  {
    hide Clean, Occurs, Flatten, Picks;
    var x := new char[HARD_LEN];
    var n, r := 0, r0;
    states, pieces := [], [];
    NoPieces();
    while true
      invariant fresh(x) && 0 <= n < HARD_LEN == x.Length
      invariant Follows(step, r0, states) && r == Before(r0, states, |states|)
      invariant |states| == |pieces| && forall i :: 0 <= i < |pieces| ==> Picks(states[i], pieces[i])
      invariant forall i :: 0 <= i < |pieces| ==> pieces[i] in TOKENS
      invariant x[..n] == Flatten(pieces)
      decreases HARD_LEN - n
    {
      FollowsSnoc(step, r0, states);
      r := step(r);
      states := states + [r];
      var t := TOKENS[r % 10];
      PickToken(r);
      TokensClean(r % 10);
      if n + |t| >= HARD_LEN { break; }
      Append(x, n, t);
      FlattenSnoc(pieces, t);
      pieces := pieces + [t];
      n := n + |t|;
    }
    text := x[..n];
    NeedlesAbsent(pieces);
  }

  lemma NoPieces()
    ensures Flatten<char>([]) == []
  {
  }

  lemma BuiltFollows(step: nat -> nat, r0: nat, states: seq<nat>, pieces: seq<string>, text: string)
    requires IsBuilt(step, r0, states, pieces, text)
    ensures Follows(step, r0, states)
  {
  }

  /** What the benchmark searches. */
  method BenchmarkText() returns (text: string, ghost states: seq<nat>, ghost pieces: seq<string>)
    ensures IsBuilt(XorShift, 99, states, pieces, text)
    ensures forall i :: 0 <= i < |states| ==> IsShifted(Before(99, states, i), states[i])
    ensures !Occurs("<>", text) && !Occurs("</pre>", text) && !Occurs("<b>hello world</b>", text)
  {
    hide XorShift, IsShifted, IsBuilt, Occurs;
    text, states, pieces := BuildHard(XorShift, 99);
    BuiltFollows(XorShift, 99, states, pieces, text);
    forall i | 0 <= i < |states| ensures IsShifted(Before(99, states, i), states[i]) {
      XorShiftIs(Before(99, states, i));
      assert states[i] == XorShift(Before(99, states, i));
    }
  }
}

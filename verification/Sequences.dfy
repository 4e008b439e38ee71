module Sequences {

  /** The pieces of a sequence joined up again. */
  function Flatten<T>(pieces: seq<seq<T>>): seq<T> {
    if pieces == [] then [] else pieces[0] + Flatten(pieces[1..])
  }

  lemma FlattenCons<T>(piece: seq<T>, rest: seq<seq<T>>)
    ensures Flatten([piece] + rest) == piece + Flatten(rest)
  {
    assert ([piece] + rest)[1..] == rest;
  }

  lemma {:induction false} FlattenSnoc<T>(pieces: seq<seq<T>>, last: seq<T>)
    ensures Flatten(pieces + [last]) == Flatten(pieces) + last
  {
    if pieces == [] {
      FlattenCons(last, []);
      assert [] + [last] == [last] + [];
    } else {
      FlattenSnoc(pieces[1..], last);
      FlattenCons(pieces[0], pieces[1..] + [last]);
      assert pieces + [last] == [pieces[0]] + (pieces[1..] + [last]);
    }
  }
}

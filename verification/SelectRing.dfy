/** One token moving round a ring of buffered channels through a select over all of them
    (bench/select_bench.c). */
module SelectRing {
  import opened Wrappers
  import opened Channels

  const ARMS: nat := 8

  /** A channel of the ring between two operations: capacity one, nobody parked. */
  predicate Resting(c: Chan) {
    Ok(c) && c.cap == 1 && !c.closed && c.sender == None && c.landed == None && !c.receiver
  }

  /** Channel `at` holds the one value and every other channel is empty. */
  predicate TokenAt(wide: seq<Chan>, at: nat, value: int) {
    && |wide| == ARMS
    && forall i :: 0 <= i < ARMS ==> Resting(wide[i]) && wide[i].buf == if i == at then [value] else []
  }

  /** chan_select over receive arms: any arm that is ready may be the one. It would park if none
      were, so a caller that goes on has to show that one is. */
  method Select(wide: array<Chan>) returns (which: nat)
    requires exists i :: 0 <= i < wide.Length && CanRecv(wide[i])
    ensures which < wide.Length && CanRecv(wide[which])
  {
    which :| which < wide.Length && CanRecv(wide[which]);
  }

  lemma TokenMoves(wide: seq<Chan>, at: nat, value: int, which: nat)
    requires at < ARMS && TokenAt(wide, at, value) && which < ARMS && CanRecv(wide[which])
    ensures which == at && !Recv(wide[at]).receiver && Recv(wide[at]).got == wide[at].got + [value]
    ensures var to := (at + 1) % ARMS;
            var after := wide[at := Recv(wide[at])];
            && CanSend(after[to]) && TokenAt(after[to := Send(after[to], value)], to, value)
  {
  }

  /** One pass of the loop: receive the token wherever it is and send it on to the next arm. */
  method Pass(wide: array<Chan>, ghost at: nat, ghost value: int) returns (which: nat)
    requires at < ARMS && TokenAt(wide[..], at, value)
    modifies wide
    ensures which == at && TokenAt(wide[..], (at + 1) % ARMS, value)
  {
    ghost var before := wide[..];
    assert wide[at] == before[at];
    which := Select(wide);
    TokenMoves(before, at, value, which);
    hide Send, Recv, TokenAt;
    var from := wide[which];
    wide[which] := Recv(from);
    var got := wide[which].got[|from.got|];
    var to := (which + 1) % ARMS;
    assert CanSend(wide[to]);
    wide[to] := Send(wide[to], got);
    assert wide[..] == before[which := Recv(from)][to := wide[to]];
  }

  lemma NextArm(k: nat)
    ensures (k % ARMS + 1) % ARMS == (k + 1) % ARMS
  {
  }

  lemma SeedOk(wide: seq<Chan>, seed: int)
    requires wide == seq(ARMS, _ => Make(1))
    ensures TokenAt(wide[0 := Send(wide[0], seed)], 0, seed)
  {
  }

  /** eight_arms_body. `order` is what the selects return. At pass k it is k mod 8, whatever the
      select prefers: exactly one channel is ever full, so no select and no send blocks. */
  method EightArms(n: nat) returns (order: seq<nat>, left: seq<Chan>)
    ensures |order| == n && forall k :: 0 <= k < n ==> order[k] == k % 8
    ensures TokenAt(left, n % 8, 1) && |left| == 8
    ensures forall i :: 0 <= i < 8 ==> left[i].buf == (if i == n % 8 then [1] else []) && left[i].sender == None
  {
    var wide := new Chan[ARMS](_ => Make(1));
    var seed := 1;
    SeedOk(wide[..], seed);
    hide TokenAt, Send;
    ghost var empty := wide[..];
    wide[0] := Send(wide[0], seed);
    assert wide[..] == empty[0 := wide[0]];
    order := [];
    for k := 0 to n
      invariant fresh(wide) && TokenAt(wide[..], k % ARMS, 1)
      invariant |order| == k && forall j :: 0 <= j < k ==> order[j] == j % ARMS
    {
      var which := Pass(wide, k % ARMS, 1);
      order := order + [which];
      NextArm(k);
    }
    left := wide[..];
  }
}

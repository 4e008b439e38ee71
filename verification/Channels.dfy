/** What the benchmarks rely on a channel for: a first-in first-out queue of bounded capacity
    with one goroutine sending and one receiving, which park when they cannot go on and meet
    directly when the capacity is zero. The library's own channel is not part of this model. */
module Channels {
  import opened Wrappers

  /** `sender` is the value of a parked sender, `receiver` says that the receiver is parked, and
      `landed` is a value handed to it that it has not woken up to yet. `sent` and `got` are the
      values that ever entered the channel and those the receiver has taken. */
  datatype Chan = Chan(
    cap: nat, buf: seq<int>, closed: bool, sender: Option<int>, receiver: bool, landed: Option<int>,
    sent: seq<int>, got: seq<int>)

  function Make(cap: nat): (c: Chan)
    ensures Ok(c) && Load(c) == []
  {
    Chan(cap, [], false, None, false, None, [], [])
  }

  function Held(v: Option<int>): seq<int> {
    if v.Some? then [v.value] else []
  }

  /** The values on their way through the channel, oldest first. */
  function Load(c: Chan): seq<int> {
    Held(c.landed) + c.buf + Held(c.sender)
  }

  predicate Ok(c: Chan) {
    && |c.buf| <= c.cap
    && (c.sender.Some? ==> |c.buf| == c.cap && !c.closed)
    && (c.receiver ==> Load(c) == [] && !c.closed)
    && c.sent == c.got + Load(c)
  }

  /** Sends wait until there is room or a receiver; a parked sender resumes when its value has
      moved on, which is when `sender` is None again. */
  function Send(c: Chan, v: int): (r: Chan)
    ensures Ok(c) && c.sender == None && !c.closed ==>
              && Ok(r) && r.cap == c.cap && !r.closed && r.sent == c.sent + [v] && r.got == c.got
              && (r.sender.Some? <==> !c.receiver && |c.buf| == c.cap)
              && !r.receiver && (r.landed.Some? <==> c.landed.Some? || c.receiver)
  {
    if c.receiver then c.(receiver := false, landed := Some(v), sent := c.sent + [v])
    else if |c.buf| < c.cap then c.(buf := c.buf + [v], sent := c.sent + [v])
    else c.(sender := Some(v), sent := c.sent + [v])
  }

  /** A receive takes the oldest value and lets a parked sender in behind it, reports a closed
      and drained channel by taking nothing, and parks otherwise. */
  function Recv(c: Chan): (r: Chan)
    ensures Ok(c) && !c.receiver && c.landed == None ==>
              && Ok(r) && r.cap == c.cap && r.closed == c.closed && r.sent == c.sent && r.landed == None
              && (r.receiver <==> Load(c) == [] && !c.closed)
              && (Load(c) == [] ==> r.got == c.got && r.sender == c.sender)
              && (Load(c) != [] ==> r.got == c.got + [Load(c)[0]] && r.sender == None)
  {
    if c.buf != [] then
      c.(buf := c.buf[1..] + Held(c.sender), sender := None, got := c.got + [c.buf[0]])
    else if c.sender.Some? then c.(sender := None, got := c.got + [c.sender.value])
    else if c.closed then c
    else c.(receiver := true)
  }

  /** A receiver that was parked wakes up: with a value, or with none if the channel was closed. */
  function Collect(c: Chan): (r: Chan)
    ensures Ok(c) && !c.receiver ==>
              && Ok(r) && r.cap == c.cap && r.closed == c.closed && r.sent == c.sent && r.sender == c.sender
              && !r.receiver && r.landed == None && r.got == c.got + Held(c.landed)
  {
    c.(landed := None, got := c.got + Held(c.landed))
  }

  function Close(c: Chan): (r: Chan)
    ensures Ok(c) && c.sender == None ==>
              && Ok(r) && r.cap == c.cap && r.closed && !r.receiver && r.landed == c.landed
              && r.sent == c.sent && r.got == c.got && r.sender == None
  {
    c.(closed := true, receiver := false)
  }

  /** A non-blocking send goes through only where a send would not park. */
  predicate CanSend(c: Chan) {
    c.receiver || |c.buf| < c.cap
  }

  /** And a receive returns at once where it would not park. */
  predicate CanRecv(c: Chan) {
    Load(c) != [] || c.closed
  }

  /** Neither parks exactly when it can go through. */
  lemma CanIff(c: Chan, v: int)
    requires Ok(c) && c.sender == None && !c.closed
    ensures CanSend(c) <==> Send(c, v).sender == None
    ensures !c.receiver && c.landed == None ==> (CanRecv(c) <==> !Recv(c).receiver)
  {
  }
}

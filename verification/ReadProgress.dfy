/** That a session's reader gets on: every read with something to hand out hands it out, enough reads
    return everything, and the channel takes as many payloads as it has places. */
module ReadProgress {
  import opened Basics
  import opened NetConns
  import Env = Envelopes

  /** What one read does to a session: it returns from the leftovers if there are any, whatever the
      deadline; else, unless the deadline has passed, from the first queued payload, which leaves
      the queue; else it reports EOF if the channel is closed. Which bytes these are follows from
      ReadRefinesStream: `returned` is a prefix of the accepted bytes. */
  lemma {:induction false} ReadAdvances(c: Conn, n: nat, expired: bool)
    requires StreamInv(c)
    ensures var c', q, left := ReadFrom(c, n, expired), c.live.queue, |c.live.readBuf|;
            && StreamInv(c') && c'.returned <= Flatten(c.accepted)
            && (c'.accepted, c'.offered, c'.sources, c'.peer, c'.closes) == (c.accepted, c.offered, c.sources, c.peer, c.closes)
            && c'.live.closed == c.live.closed
            && if left > 0 then
                 |c'.returned| == |c.returned| + Min(n, left) && c'.live.queue == q && c'.eof == c.eof
               else if expired then c' == c
               else if q != [] then
                 |c'.returned| == |c.returned| + Min(n, |q[0]|) && c'.live.queue == q[1..] && c'.eof == c.eof
               else c' == c.(eof := c.eof || c.live.closed)
  {
    ReadKeepsStream(c, n, expired);
    PrefixOfAll(ReadFrom(c, n, expired));
  }

  lemma {:induction false} PrefixOfAll(c: Conn)
    requires StreamInv(c)
    ensures c.returned <= Flatten(c.accepted)
    ensures |c.returned| + |c.live.readBuf| + |Flatten(c.live.queue)| == |Flatten(c.accepted)|
    ensures c.live.queue == [] && c.live.readBuf == [] ==> c.returned == Flatten(c.accepted)
  {
    Assoc(c.returned, c.live.readBuf, Flatten(c.live.queue));
  }

  // ---------------------------------------------------------------- draining

  /** How many non-empty reads are enough: one for every byte not returned, and for every payload. */
  function Backlog(l: Live): nat { |l.readBuf| + |Flatten(l.queue)| + |l.queue| }

  /** A read with room for a byte makes the backlog smaller, as long as there is one. */
  lemma {:induction false} BacklogShrinks(c: Conn, n: nat)
    requires StreamInv(c) && n > 0 && Backlog(c.live) > 0
    ensures Backlog(ReadFrom(c, n, false).live) < Backlog(c.live)
  {
    ReadAdvances(c, n, false);
    PrefixOfAll(c);
    PrefixOfAll(ReadFrom(c, n, false));
  }

  /** Reads one after the other, into buffers of these sizes, none of them past its deadline. */
  function ReadMany(c: Conn, sizes: seq<nat>): Conn
    decreases |sizes|
  {
    if sizes == [] then c else ReadMany(ReadFrom(c, sizes[0], false), sizes[1..])
  }

  ghost predicate AllPositive(sizes: seq<nat>) { forall n :: n in sizes ==> n > 0 }

  /** Enough reads into non-empty buffers, of whatever sizes, return every accepted byte, and one more
      reports EOF if the channel is closed. */
  lemma {:induction false} ReadsDrain(c: Conn, sizes: seq<nat>)
    requires StreamInv(c) && AllPositive(sizes) && |sizes| >= Backlog(c.live)
    ensures var c' := ReadMany(c, sizes);
            && c'.accepted == c.accepted && c'.returned == Flatten(c.accepted)
            && c'.live == Live([], c.live.closed, [])
            && (c.live.closed && |sizes| > Backlog(c.live) ==> c'.eof)
    decreases |sizes|
  {
    PrefixOfAll(c);
    if sizes == [] {
    } else {
      var n, next := sizes[0], ReadFrom(c, sizes[0], false);
      ReadAdvances(c, n, false);
      assert n in sizes && forall m :: m in sizes[1..] ==> m in sizes;
      if Backlog(c.live) > 0 { BacklogShrinks(c, n); }
      ReadsDrain(next, sizes[1..]);
      if next.eof { EofStays(next, sizes[1..]); }
    }
  }

  lemma {:induction false} EofStays(c: Conn, sizes: seq<nat>)
    requires StreamInv(c) && c.eof
    ensures ReadMany(c, sizes).eof
    decreases |sizes|
  {
    if sizes == [] {
    } else {
      ReadAdvances(c, sizes[0], false);
      EofStays(ReadFrom(c, sizes[0], false), sizes[1..]);
    }
  }

  // ---------------------------------------------------------------- capacity

  function SendMany(c: Conn, src: Env.PeerId, ps: seq<Bytes>): Conn
  {
    if ps == [] then c else SendTo(SendMany(c, src, ps[..|ps| - 1]), src, ps[|ps| - 1])
  }

  /** The channel of a session has 64 places: of the payloads sent to a new session that nobody reads,
      it accepts exactly the first 64. */
  lemma {:induction false} FirstSixtyFour(peer: Env.PeerId, src: Env.PeerId, ps: seq<Bytes>)
    ensures var c := SendMany(NewConn(peer), src, ps);
            c.accepted == c.live.queue == ps[..Min(|ps|, 64)] && c.offered == ps && !c.live.closed
    decreases |ps|
  {
    if ps == [] {
    } else {
      var init, p := ps[..|ps| - 1], ps[|ps| - 1];
      FirstSixtyFour(peer, src, init);
      assert ps == init + [p];
      FirstOf(init, p);
      var c := SendMany(NewConn(peer), src, init);
      assert SendMany(NewConn(peer), src, ps) == SendTo(c, src, p);
    }
  }

  lemma FirstOf(init: seq<Bytes>, p: Bytes)
    ensures (init + [p])[..Min(|init| + 1, 64)] == if |init| < 64 then init[..Min(|init|, 64)] + [p] else init[..64]
  {
  }
}

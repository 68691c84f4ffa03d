/** One relayed session seen as a byte stream: the bounded receive channel of a session entry
    and the Read of internal/h2proxy/envelope_conn.go with its leftover buffer. */
module NetConns {
  import opened Basics
  import Env = Envelopes

  const RECV_QUEUE: nat := 64

  /** What the session holds: the receive channel (`queue`, `closed`) and `readBuf`. */
  datatype Live = Live(queue: seq<Bytes>, closed: bool, readBuf: Bytes)

  const FRESH := Live([], false, [])

  predicate HasRoom(l: Live) { !l.closed && |l.queue| < RECV_QUEUE }

  /** safeSend: a full channel drops the payload; a closed one panics, which is recovered. */
  function Send(l: Live, p: Bytes): Live
  {
    if HasRoom(l) then l.(queue := l.queue + [p]) else l
  }

  function Close(l: Live): Live { l.(closed := true) }

  datatype Outcome = Data(bytes: Bytes) | Eof | Waiting

  /** Read into a buffer of `n` bytes: leftovers first, then one queued payload whose tail
      becomes the new leftover; end of file only when the channel is closed and drained.
      `expired` is a passed deadline, which is looked at only when there are no leftovers. */
  function Read(l: Live, n: nat, expired: bool): (Live, Outcome)
  {
    if l.readBuf != [] then
      var k := Min(n, |l.readBuf|);
      (l.(readBuf := l.readBuf[k..]), Data(l.readBuf[..k]))
    else if expired then (l, Waiting)
    else if l.queue != [] then
      var data := l.queue[0];
      var k := Min(n, |data|);
      (Live(l.queue[1..], l.closed, data[k..]), Data(data[..k]))
    else (l, if l.closed then Eof else Waiting)
  }

  /** The same object updated in place. */
  class EnvelopeNetConn {
    var queue: seq<Bytes>
    var closed: bool
    var readBuf: Bytes

    function View(): Live
      reads this
    {
      Live(queue, closed, readBuf)
    }

    constructor ()
      ensures View() == FRESH
    {
      queue, closed, readBuf := [], false, [];
    }

    method SafeSend(p: Bytes)
      modifies this
      ensures View() == Send(old(View()), p)
    {
      if !closed && |queue| < RECV_QUEUE {
        queue := queue + [p];
      }
    }

    method CloseOnce()
      modifies this
      ensures View() == Close(old(View()))
    {
      closed := true;
    }

    /** Read(b): the bytes land at the front of `b`, the rest of `b` is untouched. */
    method ReadInto(b: array<byte>, expired: bool) returns (n: nat, r: Outcome)
      modifies this, b
      ensures (View(), r) == Read(old(View()), b.Length, expired)
      ensures r.Data? ==> n == |r.bytes| <= b.Length && b[..n] == r.bytes && b[n..] == old(b[n..])
      ensures !r.Data? ==> n == 0 && b[..] == old(b[..])
    {
      if |readBuf| > 0 {
        n := Min(b.Length, |readBuf|);
        r := Data(readBuf[..n]);
        Fill(b, readBuf[..n]);
        readBuf := readBuf[n..];
      } else if expired {
        n, r := 0, Waiting;
      } else if |queue| > 0 {
        var data := queue[0];
        queue := queue[1..];
        n := Min(b.Length, |data|);
        r := Data(data[..n]);
        Fill(b, data[..n]);
        if n < |data| {
          readBuf := data[n..];
        }
        assert readBuf == data[n..];
      } else {
        n, r := 0, if closed then Eof else Waiting;
      }
    }
  }

  method Fill(b: array<byte>, src: Bytes)
    requires |src| <= b.Length
    modifies b
    ensures b[..|src|] == src && b[|src|..] == old(b[|src|..])
  {
    forall i | 0 <= i < |src| {
      b[i] := src[i];
    }
  }

  // ------------------------------------------------------------- refinement

  /** A session with its history: the peer it belongs to, every payload dispatched to it, those the
      channel accepted and the peer each of them came from, the bytes Read has returned, how often
      it was closed, and whether Read reported EOF. */
  datatype Conn = Conn(peer: Env.PeerId, live: Live, offered: seq<Bytes>, accepted: seq<Bytes>,
                       sources: seq<Env.PeerId>, returned: Bytes, closes: nat, eof: bool)

  function NewConn(peer: Env.PeerId): Conn { Conn(peer, FRESH, [], [], [], [], 0, false) }

  function SendTo(c: Conn, src: Env.PeerId, p: Bytes): Conn
  {
    c.(live := Send(c.live, p), offered := c.offered + [p],
       accepted := if HasRoom(c.live) then c.accepted + [p] else c.accepted,
       sources := if HasRoom(c.live) then c.sources + [src] else c.sources)
  }

  function CloseConn(c: Conn): Conn { c.(live := Close(c.live), closes := c.closes + 1) }

  function ReadFrom(c: Conn, n: nat, expired: bool): Conn
  {
    var (l, r) := Read(c.live, n, expired);
    match r
    case Data(bytes) => c.(live := l, returned := c.returned + bytes)
    case Eof => c.(live := l, eof := true)
    case Waiting => c
  }

  /** Nothing is lost, repeated or reordered between the channel and the reader, and end of file
      is reported only when every accepted byte has been returned. */
  ghost predicate StreamInv(c: Conn)
  {
    && c.returned + c.live.readBuf + Flatten(c.live.queue) == Flatten(c.accepted)
    && SubSeq(c.accepted, c.offered) && |c.sources| == |c.accepted|
    && (c.eof ==> c.live == Live([], true, []))
  }

  lemma SendKeepsStream(c: Conn, src: Env.PeerId, p: Bytes)
    requires StreamInv(c)
    ensures StreamInv(SendTo(c, src, p))
  {
    if HasRoom(c.live) {
      FlattenSnoc(c.live.queue, p);
      FlattenSnoc(c.accepted, p);
      SubSeqKeep(c.accepted, c.offered, p);
    } else {
      SubSeqSkip(c.accepted, c.offered, p);
    }
  }

  lemma {:induction false} FlattenHead(q: seq<Bytes>)
    requires q != []
    ensures Flatten(q) == q[0] + Flatten(q[1..])
  {
    assert q == [q[0]] + q[1..];
    FlattenConcat([q[0]], q[1..]);
    FlattenSnoc([], q[0]);
  }

  lemma Recut(returned: Bytes, buf: Bytes, k: nat, rest: Bytes)
    requires k <= |buf|
    ensures (returned + buf[..k]) + buf[k..] + rest == returned + buf + rest
  {
    assert buf == buf[..k] + buf[k..];
  }

  lemma ReadKeepsStream(c: Conn, n: nat, expired: bool)
    requires StreamInv(c)
    ensures StreamInv(ReadFrom(c, n, expired))
  {
    var l := c.live;
    if l.readBuf != [] {
      Recut(c.returned, l.readBuf, Min(n, |l.readBuf|), Flatten(l.queue));
    } else if !expired && l.queue != [] {
      FlattenHead(l.queue);
      Recut(c.returned, l.queue[0], Min(n, |l.queue[0]|), Flatten(l.queue[1..]));
      Regroup(c.returned, l.queue[0], Flatten(l.queue[1..]));
    }
  }

  lemma Regroup(a: Bytes, b: Bytes, rest: Bytes)
    ensures a + [] + (b + rest) == a + b + rest
  {
  }

  datatype Event = Dispatch(src: Env.PeerId, payload: Bytes) | Closing | Reading(n: nat, expired: bool)

  function Apply(c: Conn, e: Event): Conn
  {
    match e
    case Dispatch(src, p) => SendTo(c, src, p)
    case Closing => CloseConn(c)
    case Reading(n, expired) => ReadFrom(c, n, expired)
  }

  function History(peer: Env.PeerId, es: seq<Event>): Conn
  {
    if es == [] then NewConn(peer) else Apply(History(peer, es[..|es| - 1]), es[|es| - 1])
  }

  lemma {:induction false} HistoryKeepsStream(peer: Env.PeerId, es: seq<Event>)
    ensures StreamInv(History(peer, es))
    decreases |es|
  {
    if es == [] {
      assert [] + [] + [] == Flatten([]);
    } else {
      var c, e := History(peer, es[..|es| - 1]), es[|es| - 1];
      HistoryKeepsStream(peer, es[..|es| - 1]);
      match e
      case Dispatch(src, p) => SendKeepsStream(c, src, p);
      case Closing =>
      case Reading(n, expired) => ReadKeepsStream(c, n, expired);
    }
  }

  /** Stream refinement of Read, over every interleaving of dispatches, closes and reads of any
      size: what was returned is a prefix of the accepted bytes, and all of them at EOF. */
  lemma {:induction false} ReadRefinesStream(peer: Env.PeerId, es: seq<Event>)
    ensures StreamInv(History(peer, es))
    ensures History(peer, es).returned <= Flatten(History(peer, es).accepted)
    ensures History(peer, es).eof ==> History(peer, es).returned == Flatten(History(peer, es).accepted)
  {
    HistoryKeepsStream(peer, es);
    var h := History(peer, es);
    Assoc(h.returned, h.live.readBuf, Flatten(h.live.queue));
  }
}

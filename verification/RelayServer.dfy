/** The relay object of internal/relay/relay.go and the loop of one handler while no other
    handler runs. */
module RelayServers {
  import opened Basics
  import opened Streams
  import opened Env = Envelopes
  import Relays

  class Relay {
    var streams: map<PeerId, Writer>

    /** No stream serves two peers. */
    ghost predicate Valid()
      reads this
    {
      forall p, q :: p in streams && q in streams && streams[p] == streams[q] ==> p == q
    }

    constructor ()
      ensures streams == map[] && Valid()
    {
      streams := map[];
    }

    /** register replaces whatever the id was mapped to; streams stay apart exactly when the new
        one serves no other peer. */
    method Register(id: PeerId, w: Writer)
      modifies this
      ensures streams == old(streams)[id := w]
      ensures old(Valid()) ==> (Valid() <==> forall p :: p in old(streams) && p != id ==> old(streams)[p] != w)
    {
      streams := streams[id := w];
      assert streams[id] == w;
      assert forall p :: p in old(streams) && p != id ==> streams[p] == old(streams)[p];
    }

    /** unregister deletes by id, whatever stream is there now. */
    method Unregister(id: PeerId)
      requires Valid()
      modifies this
      ensures Valid() && streams == old(streams) - {id}
    {
      streams := streams - {id};
    }

    /** forward: an error for an unknown destination, else the re-encoded envelope. */
    method Forward(e: Envelope) returns (ok: bool)
      modifies if e.dst in streams then {streams[e.dst]} else {}
      ensures e.dst !in streams ==> !ok
      ensures e.dst in streams ==>
                var w := streams[e.dst];
                && ok == (|Wire(e)| <= old(w.room))
                && w.written == old(w.written) + Wire(e)[..Min(|Wire(e)|, old(w.room))]
                && w.room == old(w.room) - Min(|Wire(e)|, old(w.room))
    {
      if e.dst !in streams {
        return false;
      }
      ok := Env.Encode(streams[e.dst], e);
    }

    /** Of the envelopes `done`, every stream has been given those addressed to its peer, on top
        of `w0` and as far as the room `r0` went. */
    ghost predicate Served(done: seq<Envelope>, w0: map<PeerId, Bytes>, r0: map<PeerId, nat>)
      reads this, streams.Values
    {
      && w0.Keys == r0.Keys == streams.Keys
      && forall p :: p in streams ==> ServedAt(streams[p], done, p, w0[p], r0[p])
    }

    ghost predicate ServedAt(w: Writer, done: seq<Envelope>, p: PeerId, w0: Bytes, r0: nat)
      reads w
    {
      w.written == w0 + Given(done, p, r0).0 && w.room == Given(done, p, r0).1
    }

    method ForwardOne(e: Envelope, ghost done: seq<Envelope>, ghost w0: map<PeerId, Bytes>, ghost r0: map<PeerId, nat>)
      requires Valid() && Served(done, w0, r0)
      modifies streams.Values
      ensures Served(done + [e], w0, r0)
    {
      var _ := Forward(e);
      forall p | p in streams ensures ServedAt(streams[p], done + [e], p, w0[p], r0[p]) {
        assert old(ServedAt(streams[p], done, p, w0[p], r0[p]));
        GivenSnoc(done, e, p, r0[p]);
      }
    }

    method ForwardLoop(body: Reader, ghost w0: map<PeerId, Bytes>, ghost r0: map<PeerId, nat>)
      requires Valid() && Served([], w0, r0)
      modifies body, streams.Values
      ensures streams == old(streams) && body.rest == []
      ensures Served(ParseAll(old(body.rest)), w0, r0)
    {
      ghost var all := ParseAll(body.rest);
      ghost var done: seq<Envelope> := [];
      while true
        invariant all == done + ParseAll(body.rest)
        invariant streams == old(streams) && Served(done, w0, r0)
        decreases |body.rest|
      {
        var e := DecodeNext(body, all, done);
        if e.None? {
          return;
        }
        ForwardOne(e.value, done, w0, r0);
        done := done + [e.value];
      }
    }

    /** On top of `w0`, and as far as the room `r0` went, `w` holds the encodings of the envelopes of
        `all` that are addressed to `p`, in order. */
    ghost predicate Took(w: Writer, all: seq<Envelope>, p: PeerId, w0: Bytes, r0: nat)
      reads w
    {
      w.written == w0 + WriteCalls(Relays.ToPeer(all, p), r0).0
    }

    /** The loop of handleConnect, alone: every stream gets, in order, the encodings of the
        envelopes addressed to its peer, cut off where the stream broke; errors do not stop it. */
    method ForwardAll(body: Reader)
      requires Valid()
      modifies body, streams.Values
      ensures streams == old(streams) && body.rest == []
      ensures forall p :: p in streams ==>
                Took(streams[p], ParseAll(old(body.rest)), p, old(streams[p].written), old(streams[p].room))
    {
      ghost var all := ParseAll(body.rest);
      ghost var w0 := map p | p in streams :: streams[p].written;
      ghost var r0 := map p | p in streams :: streams[p].room;
      ForwardLoop(body, w0, r0);
      forall p | p in streams
        ensures Took(streams[p], all, p, w0[p], r0[p])
      {
        assert ServedAt(streams[p], all, p, w0[p], r0[p]);
        GivenIsWriteCalls(all, p, r0[p]);
      }
    }

    /** handleConnect, alone, from the registration on: every peer connected in the meantime, the
        caller included, is sent what is addressed to it; a stream displaced by the registration
        gets nothing; and afterwards the id is gone, also if it was mapped before. */
    method HandleConnect(id: PeerId, w: Writer, body: Reader)
      requires Valid() && forall p :: p in streams && p != id ==> streams[p] != w
      modifies this, body, w, streams.Values
      ensures Valid() && streams == old(streams) - {id} && body.rest == []
      ensures Took(w, ParseAll(old(body.rest)), id, old(w.written), old(w.room))
      ensures forall p :: p in streams ==>
                Took(streams[p], ParseAll(old(body.rest)), p, old(streams[p].written), old(streams[p].room))
      ensures id in old(streams) && old(streams)[id] != w ==> old(streams)[id].written == old(streams[id].written)
    {
      Register(id, w);
      ghost var all, table := ParseAll(body.rest), streams;
      ValuesOfUpdate(old(streams), id, w);
      ForwardAll(body);
      assert Took(table[id], all, id, old(w.written), old(w.room));
      Unregister(id);
    }
  }

  // Of the envelopes `all` on the stream, `done` have been read: read one more.
  method DecodeNext(body: Reader, ghost all: seq<Envelope>, ghost done: seq<Envelope>) returns (e: Option<Envelope>)
    requires all == done + ParseAll(body.rest)
    modifies body
    ensures e.None? ==> all == done && body.rest == []
    ensures e.Some? ==> all == (done + [e.value]) + ParseAll(body.rest) && |body.rest| < old(|body.rest|)
  {
    NextOf(body.rest);
    e := Env.Decode(body);
    if e.Some? { Assoc(done, [e.value], ParseAll(body.rest)); }
  }

  lemma ValuesOfUpdate(m: map<PeerId, Writer>, id: PeerId, w: Writer)
    ensures m[id := w].Values <= m.Values + {w} && m[id := w] - {id} == m - {id}
    ensures forall p :: p in m - {id} ==> m[id := w][p] == m[p]
  {
  }

  lemma {:induction false} NextOf(s: Bytes)
    ensures Env.Parse(s).None? ==> ParseAll(s) == []
    ensures Env.Parse(s).Some? ==> ParseAll(s) == [Env.Parse(s).value.0] + ParseAll(s[Env.Parse(s).value.1..])
  {
  }

  /** What peer `p`'s stream takes of the forwards `done`, and the room it has left. */
  function Given(done: seq<Envelope>, p: PeerId, room: nat): (r: (Bytes, nat))
    ensures r.1 <= room
  {
    if done == [] then ([], room)
    else
      var (bytes, left) := Given(done[..|done| - 1], p, room);
      var e := done[|done| - 1];
      if e.dst == p then (bytes + Wire(e)[..Min(|Wire(e)|, left)], left - Min(|Wire(e)|, left)) else (bytes, left)
  }

  lemma {:induction false} GivenSnoc(done: seq<Envelope>, e: Envelope, p: PeerId, room: nat)
    ensures var (bytes, left) := Given(done, p, room);
            var n := Min(|Wire(e)|, left);
            Given(done + [e], p, room) == if e.dst == p then (bytes + Wire(e)[..n], left - n) else (bytes, left)
  {
    assert (done + [e])[..|done|] == done;
  }

  lemma {:induction false} GivenIsWriteCalls(done: seq<Envelope>, p: PeerId, room: nat)
    ensures WriteCalls(Relays.ToPeer(done, p), room).0 == Given(done, p, room).0
    ensures WriteCalls(Relays.ToPeer(done, p), room).2 == Given(done, p, room).1
    decreases |done|
  {
    if done == [] {
    } else {
      var init, e := done[..|done| - 1], done[|done| - 1];
      GivenIsWriteCalls(init, p, room);
      var es := Relays.ToPeer(init, p);
      assert done == init + [e];
      GivenSnoc(init, e, p, room);
      Relays.ToPeerSnoc(init, e, p);
      if e.dst == p {
        assert (es + [e])[..|es|] == es;
      } else {
        assert es + [] == es;
      }
    }
  }
}

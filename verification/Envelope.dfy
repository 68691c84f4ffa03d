/** The relay framing of internal/envelope/envelope.go: a 74-byte header and a payload. */
module Envelopes {
  import opened Basics
  import opened Streams

  const HEADER_SIZE: nat := 74
  const STREAM_DATA: byte := 0

  /** A peer identity: 32 opaque bytes. */
  type PeerId = p: Bytes | |p| == 32 witness ToBE(0, 32)

  datatype Envelope = Envelope(version: byte, streamType: byte, src: PeerId, dst: PeerId,
                               session: uint32, payload: Bytes)

  /** The 74 header bytes. The length field is the payload length truncated to 32 bits. */
  function Header(e: Envelope): (h: Bytes)
    ensures |h| == HEADER_SIZE
  {
    [e.version, e.streamType] + e.src + e.dst + ToBE(e.session, 4) + ToBE(|e.payload| % POW_2_32, 4)
  }

  function Wire(e: Envelope): (w: Bytes)
    ensures |w| == HEADER_SIZE + |e.payload|
  {
    Header(e) + e.payload
  }

  /** The envelope at the head of `s` and the number of bytes it takes, if it is all there. */
  function Parse(s: Bytes): (r: Option<(Envelope, nat)>)
    ensures r.Some? ==> HEADER_SIZE <= r.value.1 <= |s|
  {
    if |s| < HEADER_SIZE then None
    else
      var n := HEADER_SIZE + FromBE(s[70..74]);
      if |s| < n then None else Some((FromHeader(s[..74], s[74..n]), n))
  }

  function FromHeader(h: Bytes, payload: Bytes): Envelope
    requires |h| == HEADER_SIZE
  {
    U32(h[66..70]);
    Envelope(h[0], h[1], h[2..34], h[34..66], FromBE(h[66..70]), payload)
  }

  lemma {:induction false} U32(s: Bytes)
    requires |s| == 4
    ensures FromBE(s) < POW_2_32
  {
    assert Pow256(4) == POW_2_32 by { assert Pow256(2) == 65536; assert Pow256(3) == 256 * 65536; }
  }

  lemma {:induction false} FieldRoundTrip(v: uint32)
    ensures FromBE(ToBE(v, 4)) == v
  {
    FromToBE(v, 4);
    U32(ToBE(v, 4));
    assert Pow256(4) == POW_2_32 by { assert Pow256(2) == 65536; assert Pow256(3) == 256 * 65536; }
  }

  lemma Cut(a: Bytes, b: Bytes, c: Bytes)
    ensures (a + b + c)[|a|..|a| + |b|] == b && (a + b + c)[|a| + |b|..|a| + |b| + |c|] == c
  {
  }

  /** The header determines every field and the payload length modulo 2^32. */
  lemma {:induction false} HeaderFields(e: Envelope)
    ensures FromBE(Header(e)[70..74]) == |e.payload| % POW_2_32
    ensures forall p: Bytes :: FromHeader(Header(e), p) == e.(payload := p)
  {
    var h := Header(e);
    FieldRoundTrip(e.session);
    FieldRoundTrip(|e.payload| % POW_2_32);
    assert h[2..34] == e.src && h[34..66] == e.dst;
    Cut([e.version, e.streamType] + e.src + e.dst, ToBE(e.session, 4), ToBE(|e.payload| % POW_2_32, 4));
  }

  /** The bytes on the wire: version, type, source, destination, then session id and payload length as
      four bytes each, most significant first, 74 in all. */
  lemma {:induction false} HeaderBytes(e: Envelope)
    ensures |Header(e)| == 74 && Header(e)[0] == e.version && Header(e)[1] == e.streamType
    ensures Header(e)[2..34] == e.src && Header(e)[34..66] == e.dst
    ensures Header(e)[66..70] == [e.session / 0x100_0000, e.session / 0x1_0000 % 256, e.session / 256 % 256, e.session % 256]
    ensures var n := |e.payload| % POW_2_32;
            Header(e)[70..74] == [n / 0x100_0000, n / 0x1_0000 % 256, n / 256 % 256, n % 256]
  {
    var n := |e.payload| % POW_2_32;
    Cut([e.version, e.streamType] + e.src + e.dst, ToBE(e.session, 4), ToBE(n, 4));
    FourBytes(e.session);
    FourBytes(n);
  }

  lemma {:induction false} FourBytes(v: uint32)
    ensures ToBE(v, 4) == [v / 0x100_0000, v / 0x1_0000 % 256, v / 256 % 256, v % 256]
  {
    assert ToBE(v / 0x100_0000 / 256, 0) == [];
    assert ToBE(v / 0x1_0000 / 256, 1) == ToBE(v / 0x100_0000 / 256, 0) + [v / 0x100_0000 % 256];
    assert ToBE(v / 256 / 256, 2) == ToBE(v / 0x100_0000, 1) + [v / 0x1_0000 % 256];
    assert ToBE(v / 256, 3) == ToBE(v / 0x1_0000, 2) + [v / 256 % 256];
    assert ToBE(v, 4) == ToBE(v / 256, 3) + [v % 256];
  }

  /** Any header followed by enough bytes decodes to its fields with the next bytes as payload. */
  lemma ParseHeader(e: Envelope, tail: Bytes)
    requires |e.payload| < POW_2_32
    ensures Parse(Header(e) + tail) ==
            if |tail| < |e.payload| then None
            else Some((e.(payload := tail[..|e.payload|]), HEADER_SIZE + |e.payload|))
  {
    HeaderFields(e);
    var s := Header(e) + tail;
    assert s[..74] == Header(e) && s[70..74] == Header(e)[70..74];
    var n := 74 + |e.payload|;
    if n <= |s| {
      assert s[74..n] == tail[..|e.payload|];
    }
  }

  /** Decode undoes Encode, whatever follows on the stream. */
  lemma RoundTrip(e: Envelope, suffix: Bytes)
    requires |e.payload| < POW_2_32
    ensures Parse(Wire(e) + suffix) == Some((e, |Wire(e)|))
  {
    ParseHeader(e, e.payload + suffix);
    Assoc(Header(e), e.payload, suffix);
    assert (e.payload + suffix)[..|e.payload|] == e.payload;
  }

  /** The exact limit of the codec: an envelope survives the wire exactly when its payload
      length fits the 32-bit field. */
  lemma RoundTripLimit(e: Envelope, suffix: Bytes)
    ensures Parse(Wire(e) + suffix) == Some((e, |Wire(e)|)) <==> |e.payload| < POW_2_32
  {
    if |e.payload| < POW_2_32 {
      RoundTrip(e, suffix);
    } else {
      HeaderFields(e);
      var s := Wire(e) + suffix;
      assert s[70..74] == Header(e)[70..74];
    }
  }

  lemma HeaderParts(h: Bytes)
    requires |h| == HEADER_SIZE
    ensures h == [h[0], h[1]] + h[2..34] + h[34..66] + h[66..70] + h[70..74]
  {
  }

  // A header is determined by what it decodes to.
  lemma HeaderOf(h: Bytes, payload: Bytes)
    requires |h| == HEADER_SIZE && |payload| == FromBE(h[70..74])
    ensures Header(FromHeader(h, payload)) == h && |payload| < POW_2_32
  {
    U32(h[66..70]);
    U32(h[70..74]);
    ToFromBE(h[66..70]);
    ToFromBE(h[70..74]);
    HeaderParts(h);
  }

  /** Re-encoding what was decoded gives back exactly the bytes consumed. */
  lemma Reencode(s: Bytes)
    requires Parse(s).Some?
    ensures var (e, n) := Parse(s).value; Wire(e) == s[..n] && |e.payload| < POW_2_32
  {
    var n := Parse(s).value.1;
    HeadAndTail(s, n);
    HeaderOf(s[..74], s[74..n]);
  }

  lemma HeadAndTail(s: Bytes, n: nat)
    requires 74 <= n <= |s|
    ensures s[..74] + s[74..n] == s[..n] && s[..74][70..74] == s[70..74]
  {
  }

  /** No proper prefix of one encoding decodes. */
  lemma ProperPrefixFails(e: Envelope, p: Bytes)
    requires |e.payload| < POW_2_32 && p <= Wire(e) && p != Wire(e)
    ensures Parse(p) == None
  {
    if |p| >= 74 {
      ParseHeader(e, p[74..]);
      assert p == Header(e) + p[74..];
    }
  }

  // ------------------------------------------------------------ whole streams

  function WireAll(es: seq<Envelope>): Bytes
  {
    if es == [] then [] else WireAll(es[..|es| - 1]) + Wire(es[|es| - 1])
  }

  /** What repeated Decode calls return until the first error. */
  function ParseAll(s: Bytes): (es: seq<Envelope>)
    decreases |s|
  {
    match Parse(s)
    case None => []
    case Some((e, n)) => [e] + ParseAll(s[n..])
  }

  ghost predicate Sendable(es: seq<Envelope>)
  {
    forall e :: e in es ==> |e.payload| < POW_2_32
  }

  lemma {:induction false} WireAllSnoc(es: seq<Envelope>, e: Envelope)
    ensures WireAll(es + [e]) == WireAll(es) + Wire(e)
  {
    assert (es + [e])[..|es|] == es;
  }

  lemma {:induction false} WireAllCons(e: Envelope, es: seq<Envelope>)
    ensures WireAll([e] + es) == Wire(e) + WireAll(es)
    decreases |es|
  {
    if es == [] {
      assert [e] + es == [] + [e];
      WireAllSnoc([], e);
      assert [] + Wire(e) == Wire(e) == Wire(e) + [];
    } else {
      var n := |es| - 1;
      var init, last := es[..n], es[n];
      WireAllCons(e, init);
      assert es == init + [last];
      Assoc([e], init, [last]);
      WireAllSnoc([e] + init, last);
      WireAllSnoc(init, last);
      Assoc(Wire(e), WireAll(init), Wire(last));
    }
  }

  lemma {:induction false} ParseAllCons(e: Envelope, more: Bytes)
    requires |e.payload| < POW_2_32
    ensures ParseAll(Wire(e) + more) == [e] + ParseAll(more)
  {
    RoundTrip(e, more);
    assert (Wire(e) + more)[|Wire(e)|..] == more;
  }

  lemma {:induction false} WireAllSplit(es: seq<Envelope>, tail: Bytes)
    requires es != []
    ensures WireAll(es) + tail == Wire(es[0]) + (WireAll(es[1..]) + tail)
  {
    assert es == [es[0]] + es[1..];
    WireAllCons(es[0], es[1..]);
    Assoc(Wire(es[0]), WireAll(es[1..]), tail);
  }

  /** A stream of encodings decodes to those envelopes and then to whatever the rest holds. */
  lemma {:induction false} ParseAllWire(es: seq<Envelope>, tail: Bytes)
    requires Sendable(es)
    ensures ParseAll(WireAll(es) + tail) == es + ParseAll(tail)
    decreases |es|
  {
    if es == [] {
      assert WireAll(es) + tail == tail;
    } else {
      var rest := es[1..];
      calc {
        ParseAll(WireAll(es) + tail);
        { WireAllSplit(es, tail); }
        ParseAll(Wire(es[0]) + (WireAll(rest) + tail));
        { ParseAllCons(es[0], WireAll(rest) + tail); }
        [es[0]] + ParseAll(WireAll(rest) + tail);
        { ParseAllWire(rest, tail); }
        [es[0]] + (rest + ParseAll(tail));
        es + ParseAll(tail);
      }
    }
  }

  // --------------------------------------------------------- in-place methods

  /** Encode: the header array is filled in place, then written, then the payload if any.
      On a failing write the stream keeps a prefix of the encoding. */
  method Encode(w: Writer, e: Envelope) returns (ok: bool)
    modifies w
    ensures ok == (|Wire(e)| <= old(w.room))
    ensures w.written == old(w.written) + Wire(e)[..Min(|Wire(e)|, old(w.room))]
    ensures w.room == old(w.room) - Min(|Wire(e)|, old(w.room))
  {
    var hdr := FillHeader(e);
    ghost var room := w.room;
    ok := w.Write(hdr[..]);
    assert Header(e)[..Min(74, room)] == Wire(e)[..Min(74, room)];
    if !ok {
      return;
    }
    if |e.payload| > 0 {
      ok := w.Write(e.payload);
      var m := Min(|e.payload|, room - 74);
      assert Header(e) + e.payload[..m] == Wire(e)[..74 + m];
    }
  }

  /** The header array, filled in place. */
  method FillHeader(e: Envelope) returns (hdr: array<byte>)
    ensures fresh(hdr) && hdr[..] == Header(e)
  {
    hdr := new byte[74];
    hdr[0] := e.version;
    hdr[1] := e.streamType;
    Copy(hdr, 2, e.src);
    Copy(hdr, 34, e.dst);
    Copy(hdr, 66, ToBE(e.session, 4));
    Copy(hdr, 70, ToBE(|e.payload| % POW_2_32, 4));
  }

  /** Go's copy(dst[at:at+len(src)], src). */
  method Copy(dst: array<byte>, at: nat, src: Bytes)
    requires at + |src| <= dst.Length
    modifies dst
    ensures forall i :: 0 <= i < dst.Length ==>
              dst[i] == if at <= i < at + |src| then src[i - at] else old(dst[i])
  {
    forall i | 0 <= i < |src| {
      dst[at + i] := src[i];
    }
  }

  /** Decode: ReadFull of the header, then of the announced payload. */
  method Decode(r: Reader) returns (e: Option<Envelope>)
    modifies r
    ensures match Parse(old(r.rest))
            case Some((env, n)) => e == Some(env) && r.rest == old(r.rest)[n..]
            case None => e == None && r.rest == []
  {
    ghost var s := r.rest;
    var hdr := new byte[74];
    var ok := r.ReadFull(hdr, 74);
    if !ok {
      return None;
    }
    var h := hdr[..];
    assert h == s[..74] && h[70..74] == s[70..74];
    var n := FromBE(h[70..74]);
    var payload: Bytes := [];
    if n > 0 {
      var buf := new byte[n];
      ok := r.ReadFull(buf, n);
      if !ok {
        return None;
      }
      payload := buf[..n];
      assert s[74..][..n] == s[74..74 + n];
    }
    assert s[74..][n..] == s[74 + n..] && s[74..74] == [];
    return Some(FromHeader(h, payload));
  }

  /** The calls of writeEnvelope in the order in which they took the lock: the bytes that
      reach the stream, and the envelopes whose call reported success. */
  function WriteCalls(es: seq<Envelope>, room: nat): (r: (Bytes, seq<Envelope>, nat))
    ensures r.2 <= room
  {
    if es == [] then ([], [], room)
    else
      var (bytes, done, left) := WriteCalls(es[..|es| - 1], room);
      var e := es[|es| - 1];
      var n := Min(|Wire(e)|, left);
      (bytes + Wire(e)[..n], if n == |Wire(e)| then done + [e] else done, left - n)
  }

  // One more call appended to a stream `WireAll(done) + partial`.
  lemma {:induction false} WriteCallStep(done: seq<Envelope>, partial: Bytes, left: nat, e: Envelope) returns (partial': Bytes)
    requires |e.payload| < POW_2_32
    requires partial != [] ==> left == 0 && Parse(partial) == None
    ensures var n := Min(|Wire(e)|, left);
            var done' := if n == |Wire(e)| then done + [e] else done;
            && WireAll(done) + partial + Wire(e)[..n] == WireAll(done') + partial'
            && (partial' != [] ==> left - n == 0 && Parse(partial') == None)
  {
    var n := Min(|Wire(e)|, left);
    var w := Wire(e)[..n];
    if n == |Wire(e)| {
      WireAllSnoc(done, e);
      return [];
    } else if partial == [] {
      ProperPrefixFails(e, w);
      return w;
    } else {
      return partial;
    }
  }

  lemma {:induction false} WriteCallsShape(es: seq<Envelope>, room: nat) returns (partial: Bytes)
    requires Sendable(es)
    ensures var (bytes, done, left) := WriteCalls(es, room);
            && bytes == WireAll(done) + partial
            && Sendable(done)
            && (partial != [] ==> left == 0 && Parse(partial) == None)
  {
    if es == [] {
      partial := [];
    } else {
      var init, e := es[..|es| - 1], es[|es| - 1];
      assert forall x :: x in init ==> x in es;
      partial := WriteCallsShape(init, room);
      var (bytes, done, left) := WriteCalls(init, room);
      partial := WriteCallStep(done, partial, left, e);
    }
  }

  lemma {:induction false} AllWritesSucceed(es: seq<Envelope>, room: nat)
    requires |WireAll(es)| <= room
    ensures WriteCalls(es, room).1 == es && WriteCalls(es, room).2 == room - |WireAll(es)|
  {
    if es == [] {
    } else {
      var init, e := es[..|es| - 1], es[|es| - 1];
      AllWritesSucceed(init, room);
      assert es == init + [e];
    }
  }

  /** Concurrent writers: whatever the order in which the callers take the lock and wherever the
      stream breaks, the reader decodes exactly the envelopes whose call succeeded, in lock
      order; without a write error that is all of them. */
  lemma {:induction false} WritersSerialised(es: seq<Envelope>, room: nat)
    requires Sendable(es)
    ensures ParseAll(WriteCalls(es, room).0) == WriteCalls(es, room).1
    ensures |WireAll(es)| <= room ==> ParseAll(WriteCalls(es, room).0) == es
  {
    var partial := WriteCallsShape(es, room);
    var done := WriteCalls(es, room).1;
    ParseAllWire(done, partial);
    assert ParseAll(partial) == [];
    assert done + [] == done;
    if |WireAll(es)| <= room {
      AllWritesSucceed(es, room);
    }
  }
}

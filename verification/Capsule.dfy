/** Capsule framing of internal/h2proxy/capsule.go (section 3.2 of RFC 9297): packets and
    control payloads over one byte stream. */
module Capsules {
  import opened Basics
  import opened Streams
  import Varint

  const IP_PACKET: nat := 0
  const CONTROL: nat := 1
  const MAX_CAPSULE_LEN: nat := 65536
  const CONTROL_QUEUE: nat := 16

  datatype Error = EndOfStream | OverLimit | OverBuffer

  // ------------------------------------------------------------- one capsule

  datatype Next =
    | Capsule(ctype: nat, payload: Bytes, rest: Bytes)
    | Stop(error: Error, rest: Bytes)

  /** One round of the ReadPacket loop: type, length, the two limits, payload. Only IP_PACKET
      capsules have to fit the caller's buffer; a failed limit leaves the payload unread. */
  function NextCapsule(s: Bytes, bufLen: nat): (r: Next)
    ensures r.Capsule? ==> |r.rest| < |s|
  {
    match Varint.Parse(s)
    case None => Stop(EndOfStream, [])
    case Some((ctype, n)) =>
      match Varint.Parse(s[n..])
      case None => Stop(EndOfStream, [])
      case Some((len, m)) =>
        var body := s[n + m..];
        if len > MAX_CAPSULE_LEN then Stop(OverLimit, body)
        else if ctype == IP_PACKET && len > bufLen then Stop(OverBuffer, body)
        else if |body| < len then Stop(EndOfStream, [])
        else Capsule(ctype, body[..len], body[len..])
  }

  // --------------------------------------------------------- one ReadPacket

  datatype Packet = Got(payload: Bytes) | Failed(error: Error)
  datatype Call = Call(packet: Packet, controls: seq<Bytes>, rest: Bytes)

  /** One ReadPacket call: skip to the next IP_PACKET, offering the CONTROL payloads met on
      the way to the control channel and discarding every other type. */
  function ReadCall(s: Bytes, bufLen: nat): (c: Call)
    ensures c.packet.Got? ==> |c.rest| < |s|
    decreases |s|
  {
    match NextCapsule(s, bufLen)
    case Stop(e, rest) => Call(Failed(e), [], rest)
    case Capsule(ctype, p, rest) =>
      if ctype == IP_PACKET then Call(Got(p), [], rest)
      else
        var c := ReadCall(rest, bufLen);
        if ctype == CONTROL then c.(controls := [p] + c.controls) else c
  }

  datatype Trace = Trace(packets: seq<Bytes>, controls: seq<Bytes>, error: Error)

  /** ReadPacket called again and again until its first error. */
  function ReadAll(s: Bytes, bufLen: nat): Trace
    decreases |s|
  {
    var c := ReadCall(s, bufLen);
    match c.packet
    case Failed(e) => Trace([], c.controls, e)
    case Got(p) =>
      var t := ReadAll(c.rest, bufLen);
      Trace([p] + t.packets, c.controls + t.controls, t.error)
  }

  function Cons(ctype: nat, p: Bytes, t: Trace): Trace
  {
    if ctype == IP_PACKET then t.(packets := [p] + t.packets)
    else if ctype == CONTROL then t.(controls := [p] + t.controls)
    else t
  }

  lemma {:induction false} ReadAllCons(s: Bytes, bufLen: nat)
    requires NextCapsule(s, bufLen).Capsule?
    ensures var n := NextCapsule(s, bufLen);
            ReadAll(s, bufLen) == Cons(n.ctype, n.payload, ReadAll(n.rest, bufLen))
  {
    var n := NextCapsule(s, bufLen);
    var c := ReadCall(n.rest, bufLen);
    if n.ctype == IP_PACKET {
      var t := ReadAll(n.rest, bufLen);
      assert [] + t.controls == t.controls;
    } else if n.ctype == CONTROL && c.packet.Got? {
      var t := ReadAll(c.rest, bufLen);
      assert ([n.payload] + c.controls) + t.controls == [n.payload] + (c.controls + t.controls);
    }
  }

  // -------------------------------------------------------- capsule streams

  /** A capsule as any peer may send it: any type, varints of minimal length or not. */
  datatype Sent = Sent(typeBytes: Bytes, lenBytes: Bytes, ctype: nat, payload: Bytes)

  ghost predicate Legal(c: Sent, bufLen: nat)
  {
    && Varint.Encodes(c.typeBytes, c.ctype)
    && Varint.Encodes(c.lenBytes, |c.payload|)
    && |c.payload| <= MAX_CAPSULE_LEN
    && (c.ctype == IP_PACKET ==> |c.payload| <= bufLen)
  }

  function SentWire(c: Sent): Bytes { c.typeBytes + c.lenBytes + c.payload }

  function StreamOf(cs: seq<Sent>): Bytes
  {
    if cs == [] then [] else SentWire(cs[0]) + StreamOf(cs[1..])
  }

  /** The payloads of type `ctype`, in order. */
  function Payloads(cs: seq<Sent>, ctype: nat): seq<Bytes>
  {
    if cs == [] then []
    else (if cs[0].ctype == ctype then [cs[0].payload] else []) + Payloads(cs[1..], ctype)
  }

  ghost predicate AllLegal(cs: seq<Sent>, bufLen: nat)
  {
    forall c :: c in cs ==> Legal(c, bufLen)
  }

  // The value of NextCapsule once the two varints are known to be whole.
  lemma NextBy(typeBytes: Bytes, ctype: nat, lenBytes: Bytes, len: nat, body: Bytes, s: Bytes, bufLen: nat)
    requires Varint.Encodes(typeBytes, ctype) && Varint.Encodes(lenBytes, len)
    requires s == typeBytes + (lenBytes + body)
    ensures NextCapsule(s, bufLen) ==
            if len > MAX_CAPSULE_LEN then Stop(OverLimit, body)
            else if ctype == IP_PACKET && len > bufLen then Stop(OverBuffer, body)
            else if |body| < len then Stop(EndOfStream, [])
            else Capsule(ctype, body[..len], body[len..])
  {
    Varint.ParseSuffix(typeBytes, ctype, lenBytes + body);
    assert s[|typeBytes|..] == lenBytes + body;
    Varint.ParseSuffix(lenBytes, len, body);
    assert s[|typeBytes| + |lenBytes|..] == body;
  }

  lemma Regroup(a: Bytes, b: Bytes, p: Bytes, suffix: Bytes)
    ensures a + b + p + suffix == a + (b + (p + suffix))
    ensures (p + suffix)[..|p|] == p && (p + suffix)[|p|..] == suffix
  {
  }

  lemma NextOnWire(c: Sent, bufLen: nat, suffix: Bytes)
    requires Legal(c, bufLen)
    ensures NextCapsule(SentWire(c) + suffix, bufLen) == Capsule(c.ctype, c.payload, suffix)
  {
    Regroup(c.typeBytes, c.lenBytes, c.payload, suffix);
    NextBy(c.typeBytes, c.ctype, c.lenBytes, |c.payload|, c.payload + suffix, SentWire(c) + suffix, bufLen);
  }

  lemma NextOnTruncated(c: Sent, bufLen: nat, t: Bytes)
    requires Legal(c, bufLen) && t <= SentWire(c) && t != SentWire(c)
    ensures NextCapsule(t, bufLen) == Stop(EndOfStream, [])
  {
    var n, m := |c.typeBytes|, |c.lenBytes|;
    if |t| < n {
      assert t <= c.typeBytes;
      Varint.PrefixFree(c.typeBytes, c.ctype, t);
    } else if |t| < n + m {
      assert t == c.typeBytes + t[n..];
      Varint.ParseSuffix(c.typeBytes, c.ctype, t[n..]);
      assert t[n..] <= c.lenBytes;
      Varint.PrefixFree(c.lenBytes, |c.payload|, t[n..]);
    } else {
      var body := t[n + m..];
      assert t == c.typeBytes + (c.lenBytes + body);
      NextBy(c.typeBytes, c.ctype, c.lenBytes, |c.payload|, body, t, bufLen);
    }
  }

  /** How many of the capsules lie whole within the first `n` bytes of the stream. */
  function Whole(cs: seq<Sent>, n: nat): (k: nat)
    ensures k <= |cs|
  {
    if cs == [] || n < |SentWire(cs[0])| then 0 else 1 + Whole(cs[1..], n - |SentWire(cs[0])|)
  }

  lemma {:induction false} WholeStream(cs: seq<Sent>)
    ensures Whole(cs, |StreamOf(cs)|) == |cs|
  {
    if cs == [] {
    } else {
      WholeStream(cs[1..]);
    }
  }

  // A stream cut off anywhere is its whole capsules followed by a proper prefix of the next.
  lemma {:induction false} SplitWhole(cs: seq<Sent>, s: Bytes) returns (t: Bytes)
    requires s <= StreamOf(cs)
    ensures var k := Whole(cs, |s|);
            && s == StreamOf(cs[..k]) + t
            && if k == |cs| then t == [] else t <= SentWire(cs[k]) && t != SentWire(cs[k])
    decreases |cs|
  {
    t := s;
    if Whole(cs, |s|) > 0 {
      var w := SentWire(cs[0]);
      t := SplitWhole(cs[1..], s[|w|..]);
      var k := Whole(cs[1..], |s| - |w|);
      assert cs[..k + 1][1..] == cs[1..][..k];
      assert s == w + s[|w|..];
    }
  }

  /** What reading capsules `cs` and then the end of the stream should give. */
  function TraceOf(cs: seq<Sent>): Trace
  {
    Trace(Payloads(cs, IP_PACKET), Payloads(cs, CONTROL), EndOfStream)
  }

  lemma {:induction false} ReadAllHead(c: Sent, s: Bytes, bufLen: nat)
    requires Legal(c, bufLen)
    ensures ReadAll(SentWire(c) + s, bufLen) == Cons(c.ctype, c.payload, ReadAll(s, bufLen))
  {
    NextOnWire(c, bufLen, s);
    ReadAllCons(SentWire(c) + s, bufLen);
  }

  lemma {:induction false} ReadsWhole(cs: seq<Sent>, bufLen: nat, t: Bytes)
    requires AllLegal(cs, bufLen) && ReadAll(t, bufLen) == TraceOf([])
    ensures ReadAll(StreamOf(cs) + t, bufLen) == TraceOf(cs)
  {
    StreamHead(cs, t);
    if cs == [] {
    } else {
      LegalParts(cs, 0, bufLen);
      ReadsWhole(cs[1..], bufLen, t);
      ReadAllHead(cs[0], StreamOf(cs[1..]) + t, bufLen);
    }
  }

  lemma StreamHead(cs: seq<Sent>, t: Bytes)
    ensures StreamOf(cs) + t == if cs == [] then t else SentWire(cs[0]) + (StreamOf(cs[1..]) + t)
  {
  }

  lemma LegalParts(cs: seq<Sent>, k: nat, bufLen: nat)
    requires AllLegal(cs, bufLen) && k <= |cs|
    ensures AllLegal(cs[..k], bufLen) && (k < |cs| ==> Legal(cs[k], bufLen))
  {
    assert k < |cs| ==> cs[k] in cs;
  }

  /** Demultiplexing: over any legal capsule stream, cut off anywhere, the reads return exactly
      the packets of the capsules that arrived whole, in order, offer exactly their control
      payloads, in order, skip every other type, and then report end of stream. */
  lemma {:induction false} Demultiplex(cs: seq<Sent>, bufLen: nat, s: Bytes)
    requires AllLegal(cs, bufLen) && s <= StreamOf(cs)
    ensures ReadAll(s, bufLen) == TraceOf(cs[..Whole(cs, |s|)])
  {
    var k := Whole(cs, |s|);
    var t := SplitWhole(cs, s);
    LegalParts(cs, k, bufLen);
    if k < |cs| { NextOnTruncated(cs[k], bufLen, t); }
    ReadsWhole(cs[..k], bufLen, t);
  }

  // ----------------------------------------------------------- sender side

  /** What WritePacket and WriteControl put on the stream. */
  function WrittenCapsule(ctype: uint64, p: Bytes): Bytes
  {
    Varint.AppendVarint(ctype) + Varint.AppendVarint(|p| % POW_2_64) + p
  }

  lemma {:induction false} ThreeBytes(n: nat, a: nat, b: nat)
    requires n <= 65536 && a == n / 256 && b == a / 256
    ensures ToBE(n, 3) == [b, a % 256, n % 256]
  {
    assert ToBE(b / 256, 0) == [];
    assert ToBE(b, 1) == [b];
    assert ToBE(a, 2) == [b, a % 256];
  }

  lemma {:induction false} LengthBytes(n: nat)
    requires n <= 65536
    ensures Varint.AppendVarint(n) ==
            if n < 64 then [n]
            else if n < 16384 then [0x40 + n / 256, n % 256]
            else [0x80, n / 65536, n / 256 % 256, n % 256]
  {
    if n < 16384 {
      assert ToBE(n / 256, 0) == [];
      assert ToBE(n, 1) == [n % 256];
    } else {
      ThreeBytes(n, n / 256, n / 65536);
    }
  }

  /** The bytes of a written capsule: type 0 for a packet and 1 for a control payload, the length as
      a varint of one, two or four bytes, then the payload. */
  lemma {:induction false} CapsuleBytes(control: bool, p: Bytes)
    requires |p| <= 65536
    ensures var t := if control then 1 else 0;
            WrittenCapsule(if control then CONTROL else IP_PACKET, p) ==
              [t] + (if |p| < 64 then [|p|]
                     else if |p| < 16384 then [0x40 + |p| / 256, |p| % 256]
                     else [0x80, |p| / 65536, |p| / 256 % 256, |p| % 256]) + p
  {
    LengthBytes(0);
    LengthBytes(1);
    LengthBytes(|p|);
  }

  function SentBy(ctype: uint64, p: Bytes): Sent
  {
    Sent(Varint.AppendVarint(ctype), Varint.AppendVarint(|p| % POW_2_64), ctype, p)
  }

  lemma WrittenIsLegal(ctype: uint64, p: Bytes, bufLen: nat)
    requires ctype < POW_2_62 && |p| <= MAX_CAPSULE_LEN && (ctype == IP_PACKET ==> |p| <= bufLen)
    ensures Legal(SentBy(ctype, p), bufLen) && SentWire(SentBy(ctype, p)) == WrittenCapsule(ctype, p)
  {
    Varint.RoundTrip(ctype, []);
    Varint.RoundTrip(|p|, []);
  }

  // The length varint of a written capsule, whatever the payload's length.
  lemma LengthWritten(n: nat)
    ensures Varint.Encodes(Varint.AppendVarint(n % POW_2_64), n % POW_2_62)
  {
    var v := n % POW_2_64;
    Varint.RoundTrip(v, []);
    assert Varint.AppendVarint(v) + [] == Varint.AppendVarint(v);
    ModUnique(n, POW_2_62, 4 * (n / POW_2_64) + v / POW_2_62, v % POW_2_62);
  }

  // A payload beyond a limit is never what the reader gets, even when its length wraps around.
  lemma OversizedLost(p: Bytes, bufLen: nat, suffix: Bytes)
    requires |p| > MAX_CAPSULE_LEN || |p| > bufLen
    ensures var n := NextCapsule(WrittenCapsule(IP_PACKET, p) + suffix, bufLen);
            n.Stop? || (n.ctype == IP_PACKET && n.payload != p)
  {
    var t, l := Varint.AppendVarint(IP_PACKET), Varint.AppendVarint(|p| % POW_2_64);
    LengthWritten(0);
    LengthWritten(|p|);
    Regroup(t, l, p, suffix);
    NextBy(t, IP_PACKET, l, |p| % POW_2_62, p + suffix, WrittenCapsule(IP_PACKET, p) + suffix, bufLen);
  }

  /** Writing checks no limit, so the exact condition under which ReadPacket returns what
      WritePacket wrote is that the packet meets both of the reader's limits. */
  lemma {:induction false} PacketLimit(p: Bytes, bufLen: nat, suffix: Bytes)
    ensures ReadCall(WrittenCapsule(IP_PACKET, p) + suffix, bufLen) == Call(Got(p), [], suffix)
            <==> |p| <= MAX_CAPSULE_LEN && |p| <= bufLen
  {
    if |p| <= MAX_CAPSULE_LEN && |p| <= bufLen {
      WrittenIsLegal(IP_PACKET, p, bufLen);
      NextOnWire(SentBy(IP_PACKET, p), bufLen, suffix);
    } else {
      OversizedLost(p, bufLen, suffix);
    }
  }

  /** WritePacket / WriteControl under the writer lock: header, then payload, two writes. */
  method WriteCapsule(w: Writer, ctype: uint64, p: Bytes) returns (ok: bool)
    modifies w
    ensures ok == (|WrittenCapsule(ctype, p)| <= old(w.room))
    ensures w.written == old(w.written) +
            WrittenCapsule(ctype, p)[..Min(|WrittenCapsule(ctype, p)|, old(w.room))]
    ensures w.room == old(w.room) - Min(|WrittenCapsule(ctype, p)|, old(w.room))
  {
    var hdr := Varint.AppendVarint(ctype) + Varint.AppendVarint(|p| % POW_2_64);
    ok := WriteBoth(w, hdr, p);
  }

  method WriteBoth(w: Writer, hdr: Bytes, p: Bytes) returns (ok: bool)
    modifies w
    ensures ok == (|hdr + p| <= old(w.room))
    ensures w.written == old(w.written) + (hdr + p)[..Min(|hdr + p|, old(w.room))]
    ensures w.room == old(w.room) - Min(|hdr + p|, old(w.room))
  {
    ghost var all, room := hdr + p, w.room;
    ok := w.Write(hdr);
    assert hdr[..Min(|hdr|, room)] == all[..Min(|hdr|, room)];
    if ok {
      ok := w.Write(p);
      assert hdr + p[..Min(|p|, room - |hdr|)] == all[..Min(|all|, room)];
    }
  }

  // ------------------------------------------------------ control channel

  /** `ctrlCh`: absent, or what ReadControl has taken so far and what is still queued. */
  datatype ControlChan = NoChan | Chan(taken: seq<Bytes>, queue: seq<Bytes>)
  {
    function Delivered(): seq<Bytes> { if NoChan? then [] else taken + queue }
  }

  /** The reading goroutine takes up to `d` payloads. */
  function Drain(c: ControlChan, d: nat): ControlChan
  {
    if c.NoChan? then c
    else var k := Min(d, |c.queue|); Chan(c.taken + c.queue[..k], c.queue[k..])
  }

  function At(drains: seq<nat>, i: nat): nat { if i < |drains| then drains[i] else 0 }

  predicate HasRoom(c: ControlChan) { c.Chan? && |c.queue| < CONTROL_QUEUE }

  /** The select with a default branch: queue the payload if there is room, else drop it. */
  function Offer(c: ControlChan, p: Bytes): ControlChan
  {
    if HasRoom(c) then c.(queue := c.queue + [p]) else c
  }

  /** A list of offers; before offer number `i` the reader takes up to
      `drains[i]` payloads, none once the schedule has run out. */
  function OfferAll(c: ControlChan, ps: seq<Bytes>, drains: seq<nat>, i: nat): ControlChan
    decreases |ps|
  {
    if ps == [] then c else OfferAll(Offer(Drain(c, At(drains, i)), ps[0]), ps[1..], drains, i + 1)
  }

  lemma {:induction false} OfferFirst(c: ControlChan, p: Bytes, ps: seq<Bytes>, drains: seq<nat>, i: nat)
    ensures OfferAll(c, [p] + ps, drains, i) == OfferAll(Offer(Drain(c, At(drains, i)), p), ps, drains, i + 1)
  {
    assert ([p] + ps)[1..] == ps;
  }

  /** The payloads of the list that found room. */
  function Kept(c: ControlChan, ps: seq<Bytes>, drains: seq<nat>, i: nat): seq<Bytes>
    decreases |ps|
  {
    if ps == [] then []
    else
      (if HasRoom(Drain(c, At(drains, i))) then [ps[0]] else []) +
      Kept(Offer(Drain(c, At(drains, i)), ps[0]), ps[1..], drains, i + 1)
  }

  /** No offer of the list meets a full channel. */
  ghost predicate AlwaysRoom(c: ControlChan, ps: seq<Bytes>, drains: seq<nat>, i: nat)
    decreases |ps|
  {
    ps == [] ||
    (HasRoom(Drain(c, At(drains, i))) && AlwaysRoom(Offer(Drain(c, At(drains, i)), ps[0]), ps[1..], drains, i + 1))
  }

  lemma {:induction false} KeptDelivered(c: ControlChan, ps: seq<Bytes>, drains: seq<nat>, i: nat)
    requires c.Chan?
    ensures OfferAll(c, ps, drains, i).Chan?
    ensures OfferAll(c, ps, drains, i).Delivered() == c.Delivered() + Kept(c, ps, drains, i)
    decreases |ps|
  {
    if ps == [] {
    } else {
      var d := Drain(c, At(drains, i));
      var next, x := Offer(d, ps[0]), if HasRoom(d) then [ps[0]] else [];
      DrainOffer(c, At(drains, i), ps[0]);
      KeptDelivered(next, ps[1..], drains, i + 1);
      Assoc(c.Delivered(), x, Kept(next, ps[1..], drains, i + 1));
    }
  }

  lemma {:induction false} KeptInOrder(c: ControlChan, ps: seq<Bytes>, drains: seq<nat>, i: nat)
    ensures SubSeq(Kept(c, ps, drains, i), ps)
    decreases |ps|
  {
    if ps == [] {
    } else {
      var d := Drain(c, At(drains, i));
      var rest := Kept(Offer(d, ps[0]), ps[1..], drains, i + 1);
      KeptInOrder(Offer(d, ps[0]), ps[1..], drains, i + 1);
      SubSeqFront(rest, ps[1..], ps[0]);
      assert ps == [ps[0]] + ps[1..] && [] + rest == rest;
    }
  }

  lemma {:induction false} KeptAll(c: ControlChan, ps: seq<Bytes>, drains: seq<nat>, i: nat)
    requires AlwaysRoom(c, ps, drains, i)
    ensures Kept(c, ps, drains, i) == ps
    decreases |ps|
  {
    if ps == [] {
    } else {
      var next := Offer(Drain(c, At(drains, i)), ps[0]);
      KeptAll(next, ps[1..], drains, i + 1);
      calc {
        Kept(c, ps, drains, i);
        [ps[0]] + Kept(next, ps[1..], drains, i + 1);
        [ps[0]] + ps[1..];
        ps;
      }
    }
  }

  /** For every speed of the reader: what ReadControl gets is an in-order selection of the
      payloads offered, and all of them when no offer meets a full channel. */
  lemma {:induction false} ControlDelivery(c: ControlChan, ps: seq<Bytes>, drains: seq<nat>, i: nat)
    requires c.Chan?
    ensures exists kept ::
              && OfferAll(c, ps, drains, i).Delivered() == c.Delivered() + kept
              && SubSeq(kept, ps)
              && (AlwaysRoom(c, ps, drains, i) ==> kept == ps)
  {
    KeptDelivered(c, ps, drains, i);
    KeptInOrder(c, ps, drains, i);
    if AlwaysRoom(c, ps, drains, i) {
      KeptAll(c, ps, drains, i);
    }
  }

  lemma {:induction false} FewHaveRoom(c: ControlChan, ps: seq<Bytes>, drains: seq<nat>, i: nat)
    requires c.Chan? && |c.queue| + |ps| <= 16
    ensures AlwaysRoom(c, ps, drains, i)
    decreases |ps|
  {
    if ps == [] {
    } else {
      FewHaveRoom(Offer(Drain(c, At(drains, i)), ps[0]), ps[1..], drains, i + 1);
    }
  }

  lemma {:induction false} RoomDelivers(c: ControlChan, ps: seq<Bytes>, drains: seq<nat>, i: nat)
    requires c.Chan? && AlwaysRoom(c, ps, drains, i)
    ensures OfferAll(c, ps, drains, i).Delivered() == c.Delivered() + ps
  {
    KeptDelivered(c, ps, drains, i);
    KeptAll(c, ps, drains, i);
  }

  /** The channel has 16 places: at most 16 payloads, offered to an empty channel, all arrive, however
      slowly it is read. */
  lemma {:induction false} SixteenFit(c: ControlChan, ps: seq<Bytes>, drains: seq<nat>, i: nat)
    requires c.Chan? && |c.queue| + |ps| <= 16
    ensures AlwaysRoom(c, ps, drains, i) && OfferAll(c, ps, drains, i).Delivered() == c.Delivered() + ps
  {
    FewHaveRoom(c, ps, drains, i);
    RoomDelivers(c, ps, drains, i);
  }

  /** Nobody reads: of the payloads offered to an empty channel exactly the first 16 arrive. */
  lemma {:induction false} OnlySixteen(queue: seq<Bytes>, ps: seq<Bytes>, i: nat)
    requires |queue| <= 16
    ensures OfferAll(Chan([], queue), ps, [], i) == Chan([], queue + ps[..Min(|ps|, 16 - |queue|)])
    decreases |ps|
  {
    if ps == [] {
      assert queue + [] == queue;
    } else if |queue| < 16 {
      OnlySixteen(queue + [ps[0]], ps[1..], i + 1);
      var k := Min(|ps| - 1, 15 - |queue|);
      assert [ps[0]] + ps[1..][..k] == ps[..k + 1];
      Assoc(queue, [ps[0]], ps[1..][..k]);
      assert Drain(Chan([], queue), 0) == Chan([], queue);
    } else {
      OnlySixteen(queue, ps[1..], i + 1);
      assert Drain(Chan([], queue), 0) == Chan([], queue);
    }
  }

  lemma {:induction false} ReadersMakeRoom(c: ControlChan, ps: seq<Bytes>, drains: seq<nat>, i: nat)
    requires c.Chan? && |c.queue| <= 16 && i + |ps| <= |drains| && forall j :: i <= j < i + |ps| ==> drains[j] > 0
    ensures AlwaysRoom(c, ps, drains, i)
    decreases |ps|
  {
    if ps == [] {
    } else {
      ReadersMakeRoom(Offer(Drain(c, At(drains, i)), ps[0]), ps[1..], drains, i + 1);
    }
  }

  /** The reader takes at least one payload before each is offered: all arrive, however many. */
  lemma {:induction false} KeepingUp(c: ControlChan, ps: seq<Bytes>, drains: seq<nat>, i: nat)
    requires c.Chan? && |c.queue| <= 16 && i + |ps| <= |drains| && forall j :: i <= j < i + |ps| ==> drains[j] > 0
    ensures OfferAll(c, ps, drains, i).Delivered() == c.Delivered() + ps
  {
    ReadersMakeRoom(c, ps, drains, i);
    RoomDelivers(c, ps, drains, i);
  }

  lemma DrainOffer(c: ControlChan, d: nat, p: Bytes)
    requires c.Chan?
    ensures Offer(Drain(c, d), p).Chan?
    ensures Offer(Drain(c, d), p).Delivered() ==
            c.Delivered() + if HasRoom(Drain(c, d)) then [p] else []
  {
    assert Drain(c, d).Delivered() == c.Delivered();
  }

  datatype ReadResult = Read(n: nat) | ReadError(error: Error)

  /** The receiving half of `capsuleConn`. `drains` is the schedule of the goroutine that reads
      the control channel, `seen` the number of CONTROL capsules met so far. */
  class CapsuleConn {
    const rd: Reader
    const drains: seq<nat>
    var ctrl: ControlChan
    var seen: nat

    constructor (rd: Reader, ctrl: ControlChan, drains: seq<nat>)
      ensures this.rd == rd && this.drains == drains && this.ctrl == ctrl && seen == 0
    {
      this.rd, this.drains, this.ctrl, seen := rd, drains, ctrl, 0;
    }

    /** One round of the loop: the next capsule, its payload in `buf` if it is a packet. */
    method ReadCapsule(buf: array<byte>) returns (r: Next)
      modifies rd, buf
      ensures r == NextCapsule(old(rd.rest), buf.Length) && rd.rest == r.rest
      ensures r.Capsule? && r.ctype == IP_PACKET ==>
                |r.payload| <= buf.Length && buf[..|r.payload|] == r.payload
    {
      ghost var s := rd.rest;
      var ct := Varint.ReadVarint(rd);
      if ct.None? {
        return Stop(EndOfStream, []);
      }
      ghost var n := Varint.Parse(s).value.1;
      var len := Varint.ReadVarint(rd);
      if len.None? {
        return Stop(EndOfStream, []);
      }
      assert s[n..][Varint.Parse(s[n..]).value.1..] == s[n + Varint.Parse(s[n..]).value.1..];
      if len.value > MAX_CAPSULE_LEN {
        return Stop(OverLimit, rd.rest);
      }
      var payload: Bytes := [];
      var ok;
      if ct.value == CONTROL {
        var copy := new byte[len.value];
        ok := rd.ReadFull(copy, len.value);
        payload := copy[..len.value];
      } else if ct.value != IP_PACKET {
        payload := rd.rest[..Min(len.value, |rd.rest|)];
        ok := rd.Discard(len.value);
      } else if len.value > buf.Length {
        return Stop(OverBuffer, rd.rest);
      } else {
        ok := rd.ReadFull(buf, len.value);
        payload := buf[..len.value];
      }
      return if ok then Capsule(ct.value, payload, rd.rest) else Stop(EndOfStream, []);
    }

    /** The send on `ctrlCh`; offering `p` first leaves the effect of the offers to come. */
    method OfferControl(p: Bytes, ghost more: seq<Bytes>)
      modifies this
      ensures seen == old(seen) + 1
      ensures OfferAll(ctrl, more, drains, seen) == OfferAll(old(ctrl), [p] + more, drains, old(seen))
    {
      OfferFirst(ctrl, p, more, drains, seen);
      ctrl := Offer(Drain(ctrl, At(drains, seen)), p);
      seen := seen + 1;
    }

    /** ReadPacket: rounds until a packet or an error; control payloads go to the channel. */
    method ReadPacket(buf: array<byte>) returns (r: ReadResult)
      modifies this, rd, buf
      ensures var c := ReadCall(old(rd.rest), buf.Length);
              && rd.rest == c.rest
              && ctrl == OfferAll(old(ctrl), c.controls, drains, old(seen))
              && seen == old(seen) + |c.controls|
              && (c.packet.Got? ==> r == Read(|c.packet.payload|)
                                    && |c.packet.payload| <= buf.Length
                                    && buf[..|c.packet.payload|] == c.packet.payload)
              && (c.packet.Failed? ==> r == ReadError(c.packet.error))
    {
      ghost var c := ReadCall(rd.rest, buf.Length);
      ghost var final := OfferAll(ctrl, c.controls, drains, seen);
      while true
        invariant var d := ReadCall(rd.rest, buf.Length);
                  && d.packet == c.packet && d.rest == c.rest
                  && OfferAll(ctrl, d.controls, drains, seen) == final
                  && seen + |d.controls| == old(seen) + |c.controls|
        decreases |rd.rest|
      {
        ghost var d := ReadCall(rd.rest, buf.Length);
        var next := ReadCapsule(buf);
        if next.Stop? {
          return ReadError(next.error);
        }
        if next.ctype == IP_PACKET {
          return Read(|next.payload|);
        }
        if next.ctype == CONTROL {
          ghost var more := ReadCall(rd.rest, buf.Length).controls;
          assert d.controls == [next.payload] + more;
          OfferControl(next.payload, more);
        }
      }
    }
  }
}

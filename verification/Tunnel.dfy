/** The whole relayed tunnel: capsules, cut into writes, wrapped in envelopes, multiplexed on the
    sender's CONNECT stream, forwarded by the relay among other traffic, demultiplexed by the
    far proxy into a bounded channel, and read back through the leftover buffer into the capsule
    parser. Inner TLS is taken as a reliable byte stream. */
module Tunnel {
  import opened Basics
  import Env = Envelopes
  import Cap = Capsules
  import NetConns
  import Relay = Relays
  import Sessions
  import opened SessionDelivery
  import opened SessionOwner
  import RelayProgress
  import FarProgress

  datatype Message = Packet(bytes: Bytes) | Control(bytes: Bytes)

  function TypeOf(m: Message): (t: nat) { if m.Packet? then Cap.IP_PACKET else Cap.CONTROL }

  /** What the calls of WritePacket and WriteControl put on the stream, in lock order. */
  function Written(ms: seq<Message>): Bytes
  {
    if ms == [] then [] else Cap.WrittenCapsule(TypeOf(ms[0]), ms[0].bytes) + Written(ms[1..])
  }

  function Packets(ms: seq<Message>): seq<Bytes>
  {
    if ms == [] then [] else (if ms[0].Packet? then [ms[0].bytes] else []) + Packets(ms[1..])
  }

  function Controls(ms: seq<Message>): seq<Bytes>
  {
    if ms == [] then [] else (if ms[0].Control? then [ms[0].bytes] else []) + Controls(ms[1..])
  }

  ghost predicate Fits(ms: seq<Message>, bufLen: nat)
  {
    forall m :: m in ms ==> |m.bytes| <= Cap.MAX_CAPSULE_LEN && (m.Packet? ==> |m.bytes| <= bufLen)
  }

  // ------------------------------------------------------------ capsule layer

  function AsSent(ms: seq<Message>): (cs: seq<Cap.Sent>)
    ensures |cs| == |ms|
  {
    if ms == [] then [] else [Cap.SentBy(TypeOf(ms[0]), ms[0].bytes)] + AsSent(ms[1..])
  }

  lemma {:induction false} AsSentTake(ms: seq<Message>, k: nat)
    requires k <= |ms|
    ensures AsSent(ms)[..k] == AsSent(ms[..k])
    decreases |ms|
  {
    if k == 0 {
    } else {
      AsSentTake(ms[1..], k - 1);
      assert ms[..k][1..] == ms[1..][..k - 1];
    }
  }

  lemma {:induction false} AsSentPayloads(ms: seq<Message>)
    ensures Cap.Payloads(AsSent(ms), Cap.IP_PACKET) == Packets(ms)
    ensures Cap.Payloads(AsSent(ms), Cap.CONTROL) == Controls(ms)
    decreases |ms|
  {
    if ms == [] {
    } else {
      AsSentPayloads(ms[1..]);
      assert AsSent(ms)[1..] == AsSent(ms[1..]);
    }
  }

  lemma {:induction false} AsSentLegal(ms: seq<Message>, bufLen: nat)
    requires Fits(ms, bufLen)
    ensures Cap.AllLegal(AsSent(ms), bufLen) && Cap.StreamOf(AsSent(ms)) == Written(ms)
    decreases |ms|
  {
    if ms == [] {
    } else {
      var m, cs := ms[0], AsSent(ms);
      assert m in ms;
      Cap.WrittenIsLegal(TypeOf(m), m.bytes, bufLen);
      assert forall x :: x in ms[1..] ==> x in ms;
      AsSentLegal(ms[1..], bufLen);
      assert cs[1..] == AsSent(ms[1..]);
      assert forall c :: c in cs ==> c == cs[0] || c in cs[1..];
    }
  }

  /** Whatever prefix of the written stream arrives, the reads return the first `k` messages'
      packets and control payloads, in order; the whole stream gives all of them. */
  lemma {:induction false} ReadsWritten(ms: seq<Message>, bufLen: nat, s: Bytes) returns (k: nat)
    requires Fits(ms, bufLen) && s <= Written(ms)
    ensures k <= |ms| && (s == Written(ms) ==> k == |ms|)
    ensures Cap.ReadAll(s, bufLen) == Cap.Trace(Packets(ms[..k]), Controls(ms[..k]), Cap.EndOfStream)
  {
    AsSentLegal(ms, bufLen);
    k := Cap.Whole(AsSent(ms), |s|);
    Cap.WholeStream(AsSent(ms));
    Cap.Demultiplex(AsSent(ms), bufLen, s);
    AsSentTake(ms, k);
    AsSentPayloads(ms[..k]);
  }

  // -------------------------------------------------------------- relay layer

  /** On the stream of the destination, the data of session `sid` comes from handler `h` only. */
  ghost predicate DistinctSession(log: seq<Relay.Sent>, h: Relay.Hid, sid: Sessions.Sid)
  {
    forall x :: x in log && ForSession(x.env, sid) ==> x.from == h
  }

  lemma {:induction false} OnlyFrom(log: seq<Relay.Sent>, h: Relay.Hid, sid: Sessions.Sid)
    requires DistinctSession(log, h, sid)
    ensures DataPayloads(Relay.Envs(log), sid) == DataPayloads(Relay.From(log, h), sid)
    decreases |log|
  {
    if log == [] {
    } else {
      var init, x := log[..|log| - 1], log[|log| - 1];
      assert forall y :: y in init ==> y in log;
      OnlyFrom(init, h, sid);
      assert log == init + [x];
      Relay.LogSnoc(init, x, h);
      DataPayloadsSnoc(Relay.Envs(init), x.env, sid);
      DataPayloadsSnoc(Relay.From(init, h), x.env, sid);
    }
  }

  // What other handlers send under the id makes the session longer than its own source's part.
  lemma {:induction false} OthersAdd(log: seq<Relay.Sent>, h: Relay.Hid, sid: Sessions.Sid)
    ensures |DataPayloads(Relay.Envs(log), sid)| >= |DataPayloads(Relay.From(log, h), sid)|
    ensures !DistinctSession(log, h, sid) ==>
              |DataPayloads(Relay.Envs(log), sid)| > |DataPayloads(Relay.From(log, h), sid)|
    decreases |log|
  {
    if log == [] {
    } else {
      var init, x := log[..|log| - 1], log[|log| - 1];
      OthersAdd(init, h, sid);
      assert log == init + [x];
      Relay.LogSnoc(init, x, h);
      DataPayloadsSnoc(Relay.Envs(init), x.env, sid);
      DataPayloadsSnoc(Relay.From(init, h), x.env, sid);
      if !DistinctSession(log, h, sid) && DistinctSession(init, h, sid) {
        assert ForSession(x.env, sid) && x.from != h;
      }
    }
  }

  lemma {:induction false} SessionIsolation(log: seq<Relay.Sent>, h: Relay.Hid, sid: Sessions.Sid)
    ensures DataPayloads(Relay.Envs(log), sid) == DataPayloads(Relay.From(log, h), sid) <==> DistinctSession(log, h, sid)
  {
    if DistinctSession(log, h, sid) { OnlyFrom(log, h, sid); } else { OthersAdd(log, h, sid); }
  }

  /** The reader of a session on the stream of the destination: over every calm interleaving, once
      the stream is dispatched, what it has been given is what handler `h` sent for the session, if
      and only if no other handler has sent data under its id. */
  lemma {:induction false} ReaderIsolation(o: Relay.Output, h: Relay.Hid, s: Sessions.State, actions: seq<Sessions.Action>,
                                           t: Sessions.Tid, sid: Sessions.Sid)
    requires Relay.OutputInv(o) && FarInv(s, t, sid, o.bytes) && CalmRun(s, actions, sid)
    ensures var f := Sessions.Run(s, actions);
            t in f.tasks && f.tasks[t].Loop? && f.tasks[t].wire == [] ==>
              (SidConn(f.table, sid).accepted == DataPayloads(Relay.From(o.log, h), sid) <==> DistinctSession(o.log, h, sid))
  {
    FarRun(s, actions, t, sid, o.bytes);
    var f := Sessions.Run(s, actions);
    var k, c := f.tasks[t], SidConn(f.table, sid);
    if k.Loop? && k.wire == [] {
      Env.ParseAllWire(k.done, []);
      assert k.done + [] == k.done && c.offered + [] == c.offered;
      Relay.OutputDecodes(o);
      SessionIsolation(o.log, h, sid);
    }
  }

  lemma {:induction false} ToPeerPrefix(a: seq<Env.Envelope>, b: seq<Env.Envelope>, p: Env.PeerId)
    requires a <= b
    ensures Relay.ToPeer(a, p) <= Relay.ToPeer(b, p)
    decreases |b|
  {
    if a == b {
    } else {
      ToPeerPrefix(a, b[..|b| - 1], p);
    }
  }

  /** The far peer stays connected on stream `d`, and forwards to a stream do not overlap. */
  ghost predicate GoodRelayRun(s: Relay.State, actions: seq<Relay.Action>, p: Env.PeerId, d: Relay.Hid)
  {
    actions == [] ||
    (var init := actions[..|actions| - 1];
     && GoodRelayRun(s, init, p, d)
     && Relay.Steady(Relay.Run(s, init), p, d)
     && Relay.Exclusive(Relay.Run(s, init), actions[|actions| - 1]))
  }

  lemma {:induction false} RelayRun(s: Relay.State, actions: seq<Relay.Action>, h: Relay.Hid, p: Env.PeerId, d: Relay.Hid)
    requires Relay.WholeInv(s) && Relay.Routed(s, h, p, d) && GoodRelayRun(s, actions, p, d)
    ensures var f := Relay.Run(s, actions);
            Relay.WholeInv(f) && Relay.Routed(f, h, p, d) && f.inputs[h].body == s.inputs[h].body
    decreases |actions|
  {
    if actions == [] {
    } else {
      var init, a := actions[..|actions| - 1], actions[|actions| - 1];
      RelayRun(s, init, h, p, d);
      Relay.StepKeepsTraffic(Relay.Run(s, init), a, h, p, d);
    }
  }

  /** Through the relay: of the chunks a session put into its writes, the destination's stream
      carries a prefix, and all of them once the handler has read and written everything. */
  lemma {:induction false} RelayDelivers(s: Relay.State, actions: seq<Relay.Action>, h: Relay.Hid, p: Env.PeerId, d: Relay.Hid,
                      es: seq<Env.Envelope>, sid: Sessions.Sid)
    requires Relay.WholeInv(s) && Relay.Routed(s, h, p, d) && GoodRelayRun(s, actions, p, d)
    requires s.inputs[h].body == Env.WireAll(es) && Env.Sendable(es)
    requires d < |Relay.Run(s, actions).outputs| && DistinctSession(Relay.Run(s, actions).outputs[d].log, h, sid)
    ensures var f := Relay.Run(s, actions);
            var got := DataPayloads(Env.ParseAll(f.outputs[d].bytes), sid);
            var chunks := DataPayloads(Relay.ToPeer(es, p), sid);
            && h < |f.inputs|
            && got <= chunks
            && (f.inputs[h].rest == [] && Relay.Carried(f, h, d) == [] ==> got == chunks)
  {
    RelayRun(s, actions, h, p, d);
    RoutedPayloads(Relay.Run(s, actions), h, p, d, es, sid);
  }

  lemma {:induction false} RoutedPayloads(f: Relay.State, h: Relay.Hid, p: Env.PeerId, d: Relay.Hid,
                       es: seq<Env.Envelope>, sid: Sessions.Sid)
    requires Relay.Routed(f, h, p, d) && Relay.InputInv(f.inputs[h]) && Relay.OutputInv(f.outputs[d])
    requires f.inputs[h].body == Env.WireAll(es) && Env.Sendable(es)
    requires DistinctSession(f.outputs[d].log, h, sid)
    ensures var got := DataPayloads(Env.ParseAll(f.outputs[d].bytes), sid);
            var chunks := DataPayloads(Relay.ToPeer(es, p), sid);
            && got <= chunks
            && (f.inputs[h].rest == [] && Relay.Carried(f, h, d) == [] ==> got == chunks)
  {
    var o, i := f.outputs[d], f.inputs[h];
    Relay.OutputDecodes(o);
    OnlyFrom(o.log, h, sid);
    Relay.ConsumedPrefix(i, es);
    ToPeerPrefix(i.consumed, es, p);
    var from, carried := Relay.From(o.log, h), Relay.Carried(f, h, d);
    assert from <= from + carried;
    DataPayloadsPrefix(from, Relay.ToPeer(es, p), sid);
    assert carried == [] ==> from + carried == from;
  }

  // --------------------------------------------------------------- end to end

  /** The relay has accepted both ends: handler `h` reads the sender's stream, which holds the
      envelopes `es`, and has not started on it. */
  ghost predicate RelayStart(setup: seq<Relay.Action>, h: Relay.Hid, d: Relay.Hid, es: seq<Env.Envelope>)
  {
    var r := Relay.Run(Relay.INIT, setup);
    && Relay.OneForwardAtATime(setup)
    && h < |r.inputs| && d < |r.outputs|
    && r.inputs[h].body == Env.WireAll(es) && r.inputs[h].consumed == []
  }

  lemma {:induction false} NothingFromNothing<T>(a: seq<T>)
    requires SubSeq(a, [])
    ensures a == []
  {
  }

  lemma {:induction false} RelayStartsRouted(setup: seq<Relay.Action>, h: Relay.Hid, p: Env.PeerId, d: Relay.Hid, es: seq<Env.Envelope>)
    requires RelayStart(setup, h, d, es)
    ensures var r := Relay.Run(Relay.INIT, setup); Relay.WholeInv(r) && Relay.Routed(r, h, p, d)
  {
    var r := Relay.Run(Relay.INIT, setup);
    Relay.RunKeepsWhole(setup);
    Relay.ForwardingKeepsOrder(setup);
    assert Relay.Ordered(r, h, d);
    NothingFromNothing(Relay.From(r.outputs[d].log, h));
  }

  /** The far proxy has no read loop running and the session is new or not there yet. */
  ghost predicate FarStart(before: seq<Sessions.Action>, sid: Sessions.Sid)
  {
    var q := Sessions.Run(Sessions.INIT, before);
    && (forall t :: t in q.tasks ==> q.tasks[t].Register?)
    && SidConn(q.table, sid) == NetConns.NewConn(SidConn(q.table, sid).peer)
  }

  function FarConnected(before: seq<Sessions.Action>, wire: Bytes): Sessions.State
  {
    Sessions.Step(Sessions.Run(Sessions.INIT, before), Sessions.Connect(wire))
  }

  lemma {:induction false} FarStarts(before: seq<Sessions.Action>, sid: Sessions.Sid, wire: Bytes)
    requires FarStart(before, sid)
    ensures FarInv(FarConnected(before, wire), Sessions.Run(Sessions.INIT, before).nextTid, sid, wire)
  {
    Sessions.TableSafe(before);
    Sessions.TidsStayFresh(before);
    assert [] + wire == wire;
  }

  /** For whom the session was opened here before the connection, if it was. */
  function OpenerOf(before: seq<Sessions.Action>, sid: Sessions.Sid): Option<Env.PeerId>
  {
    var b := Sessions.Run(Sessions.INIT, before).table;
    if sid in b.sessions then Some(SidConn(b, sid).peer) else None
  }

  lemma {:induction false} FarStartsOwned(before: seq<Sessions.Action>, sid: Sessions.Sid, wire: Bytes)
    requires FarStart(before, sid)
    ensures OwnerInv(FarConnected(before, wire).table, Sessions.Loop([], wire), sid, OpenerOf(before, sid))
  {
    Sessions.TableSafe(before);
    assert SidConn(Sessions.Run(Sessions.INIT, before).table, sid).sources + [] == [];
  }

  /** Whose payloads the reader of a session gets, over every history before the connection, every
      stream and every calm interleaving after it, once the stream is dispatched: the session
      belongs to the peer it was opened for here, or else to the first one on the stream to use its
      id; it has accepted all data on the stream with that id; and this is its peer's only, if and
      only if every envelope on the stream with that id comes from that peer. */
  lemma {:induction false} SessionOwnership(before: seq<Sessions.Action>, wire: Bytes, after: seq<Sessions.Action>, sid: Sessions.Sid)
    requires FarStart(before, sid) && CalmRun(FarConnected(before, wire), after, sid)
    ensures var f := Sessions.Run(FarConnected(before, wire), after);
            var t := Sessions.Run(Sessions.INIT, before).nextTid;
            var c, es := SidConn(f.table, sid), Env.ParseAll(wire);
            var owner := OwnerOf(OpenerOf(before, sid), es, sid);
            t in f.tasks && f.tasks[t].Loop? && f.tasks[t].wire == [] && sid in f.table.sessions ==>
              && c.peer == owner && c.accepted == DataPayloads(es, sid)
              && (Sessions.OwnOnly(c) <==> AllFrom(es, sid, owner))
  {
    FarStarts(before, sid, wire);
    FarStartsOwned(before, sid, wire);
    ReaderGetsOwner(FarConnected(before, wire), after, Sessions.Run(Sessions.INIT, before).nextTid, sid, wire,
                    OpenerOf(before, sid));
  }

  /** Everything sent has been forwarded, dispatched and read. */
  predicate Drained(r: Relay.State, h: Relay.Hid, d: Relay.Hid, f: Sessions.State, t: Sessions.Tid, sid: Sessions.Sid)
  {
    && h < |r.inputs| && r.inputs[h].rest == [] && Relay.Carried(r, h, d) == []
    && t in f.tasks && f.tasks[t].Loop? && f.tasks[t].wire == []
    && SidConn(f.table, sid).live.queue == [] && SidConn(f.table, sid).live.readBuf == []
  }

  /** The reads give the packets of the first `k` messages, and what ReadControl gets through its
      bounded channel, read at any speed, is an in-order selection of their control payloads: all of
      them when there are at most 16, or the channel is never full. */
  ghost predicate Received(read: Bytes, bufLen: nat, drains: seq<nat>, ms: seq<Message>, k: nat)
    requires k <= |ms|
  {
    var controls := Controls(ms[..k]);
    var got := Cap.OfferAll(Cap.Chan([], []), controls, drains, 0).Delivered();
    && Cap.ReadAll(read, bufLen) == Cap.Trace(Packets(ms[..k]), controls, Cap.EndOfStream)
    && SubSeq(got, controls)
    && (|controls| <= 16 || Cap.AlwaysRoom(Cap.Chan([], []), controls, drains, 0) ==> got == controls)
  }

  lemma {:induction false} ReceivesWritten(ms: seq<Message>, bufLen: nat, drains: seq<nat>, read: Bytes) returns (k: nat)
    requires Fits(ms, bufLen) && read <= Written(ms)
    ensures k <= |ms| && (read == Written(ms) ==> k == |ms|)
    ensures Received(read, bufLen, drains, ms, k)
  {
    k := ReadsWritten(ms, bufLen, read);
    var chan, controls := Cap.Chan([], []), Controls(ms[..k]);
    Cap.ControlDelivery(chan, controls, drains, 0);
    var kept :| && Cap.OfferAll(chan, controls, drains, 0).Delivered() == chan.Delivered() + kept
                && SubSeq(kept, controls)
                && (Cap.AlwaysRoom(chan, controls, drains, 0) ==> kept == controls);
    assert chan.Delivered() + kept == kept;
    if |controls| <= 16 { Cap.SixteenFit(chan, controls, drains, 0); }
  }

  /** End to end: for every list of packet and control writes that fit the limits, every cutting
      of their bytes into Write calls, every interleaving with other sessions and other peers on
      the sender's stream, at the relay and at the far proxy, and every sequence of Read calls,
      what the far side has read is a prefix of what was written, its ReadPacket calls return the
      packets of the first `k` messages and its ReadControl calls get their control payloads, in
      order; once everything is drained these are all of them. Hypotheses: session ids in use are distinct,
      the session and both connections stay up, forwards to one stream do not overlap, and no
      payload of the session meets a full channel. */
  lemma {:induction false} EndToEnd(ms: seq<Message>, bufLen: nat, drains: seq<nat>, chunks: seq<Bytes>, es: seq<Env.Envelope>, sid: Sessions.Sid,
                 setup: seq<Relay.Action>, traffic: seq<Relay.Action>, h: Relay.Hid, p: Env.PeerId, d: Relay.Hid,
                 before: seq<Sessions.Action>, after: seq<Sessions.Action>)
    requires Fits(ms, bufLen) && Flatten(chunks) == Written(ms)
    requires Env.Sendable(es) && DataPayloads(Relay.ToPeer(es, p), sid) == chunks
    requires RelayStart(setup, h, d, es)
    requires GoodRelayRun(Relay.Run(Relay.INIT, setup), traffic, p, d)
    requires d < |Relay.Run(Relay.Run(Relay.INIT, setup), traffic).outputs|
    requires DistinctSession(Relay.Run(Relay.Run(Relay.INIT, setup), traffic).outputs[d].log, h, sid)
    requires FarStart(before, sid)
    requires CalmRun(FarConnected(before, Relay.Run(Relay.Run(Relay.INIT, setup), traffic).outputs[d].bytes), after, sid)
    ensures var r := Relay.Run(Relay.Run(Relay.INIT, setup), traffic);
            var f := Sessions.Run(FarConnected(before, r.outputs[d].bytes), after);
            var read := SidConn(f.table, sid).returned;
            && read <= Written(ms)
            && (exists k: nat :: k <= |ms| && Received(read, bufLen, drains, ms, k))
            && (Drained(r, h, d, f, Sessions.Run(Sessions.INIT, before).nextTid, sid) ==>
                  read == Written(ms) && Received(read, bufLen, drains, ms, |ms|))
  {
    var r0 := Relay.Run(Relay.INIT, setup);
    RelayStartsRouted(setup, h, p, d, es);
    RelayDelivers(r0, traffic, h, p, d, es, sid);
    var r := Relay.Run(r0, traffic);
    var wire, t := r.outputs[d].bytes, Sessions.Run(Sessions.INIT, before).nextTid;
    FarStarts(before, sid, wire);
    SessionReceives(FarConnected(before, wire), after, t, sid, wire);
    var f := Sessions.Run(FarConnected(before, wire), after);
    var read := SidConn(f.table, sid).returned;
    FlattenPrefix(DataPayloads(Env.ParseAll(wire), sid), chunks);
    var k := ReceivesWritten(ms, bufLen, drains, read);
  }

  // --------------------------------------------------------------- completion

  lemma {:induction false} QuietIsGood(s: Relay.State, actions: seq<Relay.Action>, p: Env.PeerId, d: Relay.Hid)
    requires RelayProgress.QuietRun(s, actions) && Relay.Steady(s, p, d)
    ensures GoodRelayRun(s, actions, p, d) && Relay.Steady(Relay.Run(s, actions), p, d)
    decreases |actions|
  {
    if actions == [] {
    } else {
      QuietIsGood(s, actions[..|actions| - 1], p, d);
    }
  }

  lemma {:induction false} GoodConcat(s: Relay.State, a: seq<Relay.Action>, b: seq<Relay.Action>, p: Env.PeerId, d: Relay.Hid)
    requires GoodRelayRun(s, a, p, d) && GoodRelayRun(Relay.Run(s, a), b, p, d)
    ensures Relay.Run(s, a + b) == Relay.Run(Relay.Run(s, a), b) && GoodRelayRun(s, a + b, p, d)
    decreases |b|
  {
    if b == [] {
      assert a + b == a;
    } else {
      GoodConcat(s, a, b[..|b| - 1], p, d);
      assert (a + b)[..|a + b| - 1] == a + b[..|b| - 1];
    }
  }

  lemma {:induction false} GoodKeepsOwed(s: Relay.State, actions: seq<Relay.Action>, p: Env.PeerId, d: Relay.Hid)
    requires Relay.WholeInv(s) && RelayProgress.OwedInv(s) && GoodRelayRun(s, actions, p, d)
    ensures Relay.WholeInv(Relay.Run(s, actions)) && RelayProgress.OwedInv(Relay.Run(s, actions))
    decreases |actions|
  {
    if actions == [] {
    } else {
      var init, a := actions[..|actions| - 1], actions[|actions| - 1];
      GoodKeepsOwed(s, init, p, d);
      Relay.StepKeepsWhole(Relay.Run(s, init), a);
      RelayProgress.StepKeepsOwed(Relay.Run(s, init), a);
    }
  }

  /** The handler of the sender has decoded and forwarded all it was sent, and the stream of the
      destination ends with a whole envelope. */
  predicate Forwarded(r: Relay.State, h: Relay.Hid, d: Relay.Hid)
  {
    && h < |r.inputs| && r.inputs[h].rest == [] && Relay.Carried(r, h, d) == []
    && d < |r.outputs| && r.outputs[d].open == None
  }

  // The same, from one state to the next.
  lemma {:induction false} ForwardsAll(r: Relay.State, h: Relay.Hid, p: Env.PeerId, d: Relay.Hid, es: seq<Env.Envelope>) returns (f: Relay.State)
    requires Relay.WholeInv(r) && RelayProgress.OwedInv(r) && Relay.Steady(r, p, d) && d < |r.outputs|
    requires h in r.handlers && RelayProgress.Working(r.handlers[h].phase) && h < |r.inputs|
    requires r.inputs[h].body == Env.WireAll(es) && Env.Sendable(es)
    ensures RelayProgress.QuietLeads(r, f) && Forwarded(f, h, d)
  {
    var m := RelayProgress.HandlerFinishes(r, h);
    var a :| RelayProgress.QuietRun(r, a) && m == Relay.Run(r, a);
    QuietIsGood(r, a, p, d);
    BodyStays(r, a, h);
    var i := m.inputs[h];
    FarProgress.NothingLeft(i.consumed, i.rest, es);
    f := RelayProgress.SettleStream(m, d, h);
    RelayProgress.QuietThen(r, m, f);
  }

  lemma {:induction false} BodyStays(s: Relay.State, actions: seq<Relay.Action>, h: Relay.Hid)
    requires h < |s.inputs|
    ensures h < |Relay.Run(s, actions).inputs| && Relay.Run(s, actions).inputs[h].body == s.inputs[h].body
    decreases |actions|
  {
    if actions == [] {
    } else {
      BodyStays(s, actions[..|actions| - 1], h);
      Relay.StepKeepsBody(Relay.Run(s, actions[..|actions| - 1]), actions[|actions| - 1], h);
    }
  }

  /** The relay's part of getting through: every good run in which the sender's handler is still at work
      has a good continuation after which everything it was sent is forwarded. */
  lemma {:induction false} RelayCompletes(setup: seq<Relay.Action>, traffic: seq<Relay.Action>, h: Relay.Hid, p: Env.PeerId, d: Relay.Hid,
                                          es: seq<Env.Envelope>) returns (more: seq<Relay.Action>)
    requires Env.Sendable(es) && RelayStart(setup, h, d, es) && GoodRelayRun(Relay.Run(Relay.INIT, setup), traffic, p, d)
    requires var r := Relay.Run(Relay.Run(Relay.INIT, setup), traffic);
             Relay.Steady(r, p, d) && h in r.handlers && RelayProgress.Working(r.handlers[h].phase)
    ensures GoodRelayRun(Relay.Run(Relay.INIT, setup), traffic + more, p, d)
    ensures Forwarded(Relay.Run(Relay.Run(Relay.INIT, setup), traffic + more), h, d)
  {
    var r0 := Relay.Run(Relay.INIT, setup);
    RelayProgress.RunKeepsOwed(setup);
    GoodKeepsOwed(r0, traffic, p, d);
    var r := Relay.Run(r0, traffic);
    BodyStays(r0, traffic, h);
    assert d < |r.outputs| by { assert Relay.LiveInv(r) && r.table[p] == d; }
    var f := ForwardsAll(r, h, p, d, es);
    more :| RelayProgress.QuietRun(r, more) && f == Relay.Run(r, more);
    QuietIsGood(r, more, p, d);
    GoodConcat(r0, traffic, more, p, d);
  }

  /** End to end, to the end: once the relay has forwarded what the session was given, every calm run of
      the far proxy, however far it has got, has a calm continuation after which the far side has read
      every byte written, its ReadPacket calls return all the packets, and its ReadControl calls get
      the control payloads. */
  lemma {:induction false} EndToEndCompletes(ms: seq<Message>, bufLen: nat, drains: seq<nat>, chunks: seq<Bytes>, es: seq<Env.Envelope>, sid: Sessions.Sid,
                 setup: seq<Relay.Action>, traffic: seq<Relay.Action>, h: Relay.Hid, p: Env.PeerId, d: Relay.Hid,
                 before: seq<Sessions.Action>, after: seq<Sessions.Action>) returns (more: seq<Sessions.Action>)
    requires Fits(ms, bufLen) && Flatten(chunks) == Written(ms)
    requires Env.Sendable(es) && DataPayloads(Relay.ToPeer(es, p), sid) == chunks
    requires RelayStart(setup, h, d, es)
    requires GoodRelayRun(Relay.Run(Relay.INIT, setup), traffic, p, d)
    requires Forwarded(Relay.Run(Relay.Run(Relay.INIT, setup), traffic), h, d)
    requires DistinctSession(Relay.Run(Relay.Run(Relay.INIT, setup), traffic).outputs[d].log, h, sid)
    requires FarStart(before, sid)
    requires CalmRun(FarConnected(before, Relay.Run(Relay.Run(Relay.INIT, setup), traffic).outputs[d].bytes), after, sid)
    ensures var r := Relay.Run(Relay.Run(Relay.INIT, setup), traffic);
            var f := Sessions.Run(FarConnected(before, r.outputs[d].bytes), after + more);
            var read := SidConn(f.table, sid).returned;
            && CalmRun(FarConnected(before, r.outputs[d].bytes), after + more, sid)
            && read == Written(ms) && Received(read, bufLen, drains, ms, |ms|)
  {
    var r0 := Relay.Run(Relay.INIT, setup);
    RelayStartsRouted(setup, h, p, d, es);
    RelayRun(r0, traffic, h, p, d);
    var r := Relay.Run(r0, traffic);
    var wire, t := r.outputs[d].bytes, Sessions.Run(Sessions.INIT, before).nextTid;
    more := FarCompletes(r.outputs[d], before, after, sid);
    EndToEnd(ms, bufLen, drains, chunks, es, sid, setup, traffic, h, p, d, before, after + more);
  }

  lemma {:induction false} FarCompletes(o: Relay.Output, before: seq<Sessions.Action>, after: seq<Sessions.Action>, sid: Sessions.Sid)
      returns (more: seq<Sessions.Action>)
    requires Relay.OutputInv(o) && o.open == None && FarStart(before, sid) && CalmRun(FarConnected(before, o.bytes), after, sid)
    ensures CalmRun(FarConnected(before, o.bytes), after + more, sid)
    ensures var f, t := Sessions.Run(FarConnected(before, o.bytes), after + more), Sessions.Run(Sessions.INIT, before).nextTid;
            && t in f.tasks && f.tasks[t].Loop? && f.tasks[t].wire == []
            && SidConn(f.table, sid).live.queue == [] && SidConn(f.table, sid).live.readBuf == []
  {
    var wire, t, q := o.bytes, Sessions.Run(Sessions.INIT, before).nextTid, FarConnected(before, o.bytes);
    FarStarts(before, sid, wire);
    FarRun(q, after, t, sid, wire);
    assert wire == Env.WireAll(Relay.Envs(o.log));
    var f := FarProgress.FarDrains(Sessions.Run(q, after), t, sid, wire, Relay.Envs(o.log));
    more :| CalmRun(Sessions.Run(q, after), more, sid) && f == Sessions.Run(Sessions.Run(q, after), more);
    FarProgress.RunConcat(q, after, more, sid);
  }
}

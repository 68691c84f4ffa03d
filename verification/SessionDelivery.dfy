/** What one session receives while the read loop serves many: over any interleaving that
    leaves the session alone, the payloads dispatched to it are exactly those of its envelopes. */
module SessionDelivery {
  import opened Basics
  import opened NetConns
  import opened Sessions
  import Env = Envelopes

  /** The payloads of the DATA envelopes of session `sid`, in order. */
  function DataPayloads(es: seq<Env.Envelope>, sid: Sid): seq<Bytes>
  {
    if es == [] then []
    else
      var e := es[|es| - 1];
      var init := DataPayloads(es[..|es| - 1], sid);
      if ForSession(e, sid) then init + [e.payload] else init
  }

  predicate ForSession(e: Env.Envelope, sid: Sid)
  {
    e.streamType == Env.STREAM_DATA && e.session == sid
  }

  lemma {:induction false} DataPayloadsSnoc(es: seq<Env.Envelope>, e: Env.Envelope, sid: Sid)
    ensures DataPayloads(es + [e], sid) ==
            if ForSession(e, sid) then DataPayloads(es, sid) + [e.payload] else DataPayloads(es, sid)
  {
    assert (es + [e])[..|es|] == es;
  }

  lemma {:induction false} DataPayloadsPrefix(a: seq<Env.Envelope>, b: seq<Env.Envelope>, sid: Sid)
    requires a <= b
    ensures DataPayloads(a, sid) <= DataPayloads(b, sid)
    decreases |b|
  {
    if a == b {
    } else {
      DataPayloadsPrefix(a, b[..|b| - 1], sid);
    }
  }

  // ---------------------------------------------------------------- invariant

  const NOBODY: Env.PeerId := ToBE(0, 32)

  /** The session's connection; one that has not been created yet counts as new, and nobody's. */
  function SidConn(b: Table, sid: Sid): Conn
  {
    if sid in b.sessions && b.sessions[sid] < |b.conns| then b.conns[b.sessions[sid]] else NewConn(NOBODY)
  }

  /** The payload the read loop holds for the session between decoding and sending. */
  function Held(b: Table, k: Task, sid: Sid): seq<Bytes>
  {
    match k
    case Lookup(e, _, _) => if e.session == sid then [e.payload] else []
    case SendOutside(c, e, _, _) => if sid in b.sessions && b.sessions[sid] == c then [e.payload] else []
    case _ => []
  }

  /** Dispatch has delivered to the session exactly what was decoded for it, none dropped. */
  ghost predicate Delivered(b: Table, k: Task, sid: Sid)
  {
    && !k.Register?
    && SidConn(b, sid).offered + Held(b, k, sid) == DataPayloads(k.done, sid)
    && SidConn(b, sid).accepted == SidConn(b, sid).offered
    && (k.SendOutside? ==> k.conn < |b.conns|)
    && (k.Lookup? ==> k.env.streamType == Env.STREAM_DATA)
    && (k.Evict? ==> k.sid != sid)
  }

  /** Goroutine `t` is the only read loop and the stream it started on was `wire0`. */
  ghost predicate OnlyLoop(s: State, t: Tid, wire0: Bytes)
  {
    && t in s.tasks && !s.tasks[t].Register?
    && (forall u :: u in s.tasks ==> u < s.nextTid && (u == t || s.tasks[u].Register?))
    && wire0 == Env.WireAll(s.tasks[t].done) + s.tasks[t].wire
    && Env.Sendable(s.tasks[t].done)
  }

  /** The step leaves session `sid` alone: it is not closed, evicted or overwritten, the stream
      does not end, no second loop starts, and a payload for it does not meet a full channel. */
  predicate Calm(s: State, a: Action, sid: Sid)
  {
    match a
    case Connect(_) => false
    case CloseAll => false
    case CloseSession(x) => x != sid
    case NewSession(_) => true
    case ReadConn(_, _, _) => true
    case Advance(u, room) =>
      u in s.tasks ==>
        match s.tasks[u]
        case Loop(done, wire) => Decoded(done, wire).Some?
        case Lookup(_, _, _) => true
        case SendOutside(c, _, _, _) =>
          sid in s.table.sessions && s.table.sessions[sid] == c && c < |s.table.conns| ==> HasRoom(s.table.conns[c].live)
        case Announce(x, _, _) => room || x != sid
        case Evict(x, _, _) => x != sid
        case Register(x, _) => x != sid
  }

  // ------------------------------------------------------------ table effects

  lemma RemoveOther(b: Table, x: Sid, sid: Sid, k: Task)
    requires TableInv(b) && x != sid && Delivered(b, k, sid)
    ensures Delivered(Remove(b, x), k, sid)
  {
    var b' := Remove(b, x);
    assert SidConn(b', sid) == SidConn(b, sid);
  }

  lemma AddOther(b: Table, x: Sid, sid: Sid, c: Conn, k: Task)
    requires TableInv(b) && x != sid && Delivered(b, k, sid)
    ensures Delivered(Add(b, x, c), k, sid)
  {
    assert SidConn(Add(b, x, c), sid) == SidConn(b, sid);
  }

  lemma ReadHere(b: Table, c: Cid, n: nat, expired: bool, sid: Sid, k: Task)
    requires TableInv(b) && Delivered(b, k, sid)
    ensures Delivered(ReadIn(b, c, n, expired), k, sid)
  {
    if c < |b.conns| {
      var old', new' := b.conns[c], ReadFrom(b.conns[c], n, expired);
      assert new'.offered == old'.offered && new'.accepted == old'.accepted;
    }
  }

  lemma SendStep(b: Table, sid: Sid, c: Cid, e: Env.Envelope, done: seq<Env.Envelope>, wire: Bytes)
    requires TableInv(b) && Delivered(b, SendOutside(c, e, done, wire), sid)
    requires sid in b.sessions && b.sessions[sid] == c ==> HasRoom(b.conns[c].live)
    ensures Delivered(SendIn(b, c, e), Loop(done, wire), sid)
  {
    var b' := SendIn(b, c, e);
    if sid in b.sessions && b.sessions[sid] == c {
      assert SidConn(b', sid) == SendTo(SidConn(b, sid), e.src, e.payload);
    } else {
      assert SidConn(b', sid) == SidConn(b, sid);
    }
  }

  lemma LookupStep(b: Table, sid: Sid, e: Env.Envelope, done: seq<Env.Envelope>, wire: Bytes)
    requires TableInv(b) && Delivered(b, Lookup(e, done, wire), sid)
    ensures e.session in b.sessions ==> Delivered(b, SendOutside(b.sessions[e.session], e, done, wire), sid)
    ensures e.session !in b.sessions ==>
              Delivered(Add(b, e.session, OpenedBy(e)), Announce(e.session, done, wire), sid)
  {
    if e.session !in b.sessions {
      var b' := Add(b, e.session, OpenedBy(e));
      if e.session == sid {
        assert SidConn(b, sid) == NewConn(NOBODY);
        assert SidConn(b', sid) == OpenedBy(e);
        FirstSend(e);
        assert [] + [e.payload] == [e.payload];
      } else {
        assert SidConn(b', sid) == SidConn(b, sid);
      }
    }
  }

  // What one decoded envelope adds to the bytes already consumed.
  lemma {:induction false} DecodeBytes(done: seq<Env.Envelope>, wire: Bytes)
    requires Env.Parse(wire).Some? && Env.Sendable(done)
    ensures var (e, n) := Env.Parse(wire).value;
            && Env.WireAll(done + [e]) + wire[n..] == Env.WireAll(done) + wire
            && Env.Sendable(done + [e])
  {
    var (e, n) := Env.Parse(wire).value;
    Env.Reencode(wire);
    Env.WireAllSnoc(done, e);
    Recut(Env.WireAll(done), wire, n, []);
    RightUnit(Env.WireAll(done) + wire[..n] + wire[n..]);
    RightUnit(Env.WireAll(done) + wire);
  }

  lemma {:induction false} DecodeStep(b: Table, sid: Sid, done: seq<Env.Envelope>, wire: Bytes)
    requires Delivered(b, Loop(done, wire), sid) && Decoded(done, wire).Some?
    ensures Delivered(b, Decoded(done, wire).value, sid)
  {
    var (e, n) := Env.Parse(wire).value;
    DataPayloadsSnoc(done, e, sid);
    assert SidConn(b, sid).offered + [] == SidConn(b, sid).offered;
  }

  // --------------------------------------------------------------------- steps

  ghost predicate FarInv(s: State, t: Tid, sid: Sid, wire0: Bytes)
  {
    TableInv(s.table) && OnlyLoop(s, t, wire0) && Delivered(s.table, s.tasks[t], sid)
  }

  lemma LoopDelivers(s: State, t: Tid, room: bool, sid: Sid, wire0: Bytes)
    requires FarInv(s, t, sid, wire0) && Calm(s, Advance(t, room), sid)
    ensures var s' := AdvanceTask(s, t, s.tasks[t], room); t in s'.tasks && Delivered(s'.table, s'.tasks[t], sid)
  {
    match s.tasks[t]
    case Loop(done, wire) => DecodeStep(s.table, sid, done, wire);
    case Lookup(e, done, wire) => LookupStep(s.table, sid, e, done, wire);
    case SendOutside(c, e, done, wire) => SendStep(s.table, sid, c, e, done, wire);
    case Announce(x, done, wire) =>
    case Evict(x, done, wire) => RemoveOther(s.table, x, sid, s.tasks[t]);
  }

  lemma LoopStaysAlone(s: State, t: Tid, room: bool, wire0: Bytes)
    requires OnlyLoop(s, t, wire0) && (s.tasks[t].Loop? ==> Env.Parse(s.tasks[t].wire).Some?)
    ensures OnlyLoop(AdvanceTask(s, t, s.tasks[t], room), t, wire0)
  {
    if s.tasks[t].Loop? { DecodeBytes(s.tasks[t].done, s.tasks[t].wire); }
  }

  lemma LoopStep(s: State, t: Tid, room: bool, sid: Sid, wire0: Bytes)
    requires FarInv(s, t, sid, wire0) && Calm(s, Advance(t, room), sid)
    ensures var s' := Step(s, Advance(t, room));
            OnlyLoop(s', t, wire0) && Delivered(s'.table, s'.tasks[t], sid)
  {
    LoopDelivers(s, t, room, sid, wire0);
    LoopStaysAlone(s, t, room, wire0);
  }

  lemma FarStep(s: State, a: Action, t: Tid, sid: Sid, wire0: Bytes)
    requires FarInv(s, t, sid, wire0) && Calm(s, a, sid)
    ensures FarInv(Step(s, a), t, sid, wire0)
  {
    StepKeepsTable(s, a);
    match a
    case CloseSession(x) => RemoveOther(s.table, x, sid, s.tasks[t]);
    case NewSession(_) =>
    case ReadConn(c, n, expired) => ReadHere(s.table, c, n, expired, sid, s.tasks[t]);
    case Advance(u, room) =>
      if u == t {
        LoopStep(s, t, room, sid, wire0);
      } else if u in s.tasks {
        AddOther(s.table, s.tasks[u].sid, sid, NewConn(s.tasks[u].peer), s.tasks[t]);
      }
  }

  ghost predicate CalmRun(s: State, actions: seq<Action>, sid: Sid)
  {
    actions == [] ||
    (var init := actions[..|actions| - 1];
     CalmRun(s, init, sid) && Calm(Run(s, init), actions[|actions| - 1], sid))
  }

  lemma {:induction false} FarRun(s: State, actions: seq<Action>, t: Tid, sid: Sid, wire0: Bytes)
    requires FarInv(s, t, sid, wire0) && CalmRun(s, actions, sid)
    ensures FarInv(Run(s, actions), t, sid, wire0)
    decreases |actions|
  {
    if actions == [] {
    } else {
      var init := actions[..|actions| - 1];
      FarRun(s, init, t, sid, wire0);
      FarStep(Run(s, init), actions[|actions| - 1], t, sid, wire0);
    }
  }

  /** Demultiplexing into sessions: over every calm interleaving, the bytes the session's reader
      has got are a prefix of the payloads its envelopes on the stream carry, and all of them
      once the stream, the loop, the channel and the leftover buffer are drained. */
  lemma {:induction false} SessionReceives(s: State, actions: seq<Action>, t: Tid, sid: Sid, wire0: Bytes)
    requires FarInv(s, t, sid, wire0) && CalmRun(s, actions, sid)
    ensures var f := Run(s, actions);
            var c := SidConn(f.table, sid);
            var sent := Flatten(DataPayloads(Env.ParseAll(wire0), sid));
            && c.returned <= sent
            && (t in f.tasks && f.tasks[t].Loop? && f.tasks[t].wire == [] && c.live.queue == [] && c.live.readBuf == []
                ==> c.returned == sent)
  {
    FarRun(s, actions, t, sid, wire0);
    var f := Run(s, actions);
    var k, c := f.tasks[t], SidConn(f.table, sid);
    assert StreamInv(c) by { NewConnHolds(NOBODY); }
    Env.ParseAllWire(k.done, k.wire);
    var all := Env.ParseAll(wire0);
    assert k.done <= all;
    DataPayloadsPrefix(k.done, all, sid);
    assert c.offered <= DataPayloads(k.done, sid);
    FlattenPrefix(c.accepted, DataPayloads(all, sid));
    ReturnedPrefix(c);
    if k.Loop? && k.wire == [] {
      assert all == k.done;
      assert c.offered + [] == c.offered;
    }
  }

  lemma {:induction false} ReturnedPrefix(c: Conn)
    requires StreamInv(c)
    ensures c.returned <= Flatten(c.accepted)
    ensures c.live.queue == [] && c.live.readBuf == [] ==> c.returned == Flatten(c.accepted)
  {
    var r, b, q := c.returned, c.live.readBuf, Flatten(c.live.queue);
    assert r + b + q == r + (b + q);
  }
}

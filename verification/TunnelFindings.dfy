/** Two peers under one session id, from the relay to the reader. Tunnel.ReaderIsolation and
    Tunnel.SessionOwnership give the exact conditions. */
module TunnelFindings {
  import opened Basics
  import Env = Envelopes
  import Relay = Relays
  import RelayFindings
  import opened NetConns
  import opened Sessions

  ghost predicate Reachable(s: State) { exists actions :: s == Run(INIT, actions) }

  lemma Then(s: State, a: Action) returns (s': State)
    requires Reachable(s)
    ensures Reachable(s') && s' == Step(s, a)
  {
    var p :| s == Run(INIT, p);
    RunSnoc(INIT, p, a);
    s' := Step(s, a);
  }

  // The only goroutine, a read loop, decodes the next envelope.
  lemma Decodes(b: Table, done: seq<Env.Envelope>, e: Env.Envelope, rest: Bytes)
    requires Reachable(State(b, 0, map[0 := Loop(done, Env.Wire(e) + rest)], 1))
    requires e.streamType == Env.STREAM_DATA && |e.payload| < POW_2_32
    ensures Reachable(State(b, 0, map[0 := Lookup(e, done + [e], rest)], 1))
  {
    Env.RoundTrip(e, rest);
    assert (Env.Wire(e) + rest)[|Env.Wire(e)|..] == rest;
    var s := Then(State(b, 0, map[0 := Loop(done, Env.Wire(e) + rest)], 1), Advance(0, true));
    assert s.tasks == map[0 := Lookup(e, done + [e], rest)];
  }

  lemma Opens(e: Env.Envelope, rest: Bytes)
    requires Reachable(State(Table(map[], []), 0, map[0 := Lookup(e, [e], rest)], 1))
    ensures Reachable(State(Table(map[e.session := 0], [OpenedBy(e)]), 0, map[0 := Loop([e], rest)], 1))
  {
    var s := Then(State(Table(map[], []), 0, map[0 := Lookup(e, [e], rest)], 1), Advance(0, true));
    assert s == State(Table(map[e.session := 0], [OpenedBy(e)]), 0, map[0 := Announce(e.session, [e], rest)], 1);
    s := Then(s, Advance(0, true));
    assert s.tasks == map[0 := Loop([e], rest)];
  }

  lemma Feeds(b: Table, e: Env.Envelope, f: Env.Envelope)
    requires b == Table(map[f.session := 0], [OpenedBy(e)])
    requires Reachable(State(b, 0, map[0 := Lookup(f, [e, f], [])], 1))
    ensures Reachable(State(SendIn(b, 0, f), 0, map[0 := Loop([e, f], [])], 1))
  {
    var s := Then(State(b, 0, map[0 := Lookup(f, [e, f], [])], 1), Advance(0, true));
    assert s.tasks == map[0 := SendOutside(0, f, [e, f], [])];
    s := Then(s, Advance(0, true));
    assert s.tasks == map[0 := Loop([e, f], [])];
  }

  lemma BothDispatched(e: Env.Envelope, f: Env.Envelope)
    requires e.streamType == f.streamType == Env.STREAM_DATA && e.session == f.session
    requires |e.payload| < POW_2_32 && |f.payload| < POW_2_32
    ensures Reachable(State(SendIn(Table(map[e.session := 0], [OpenedBy(e)]), 0, f), 0, map[0 := Loop([e, f], [])], 1))
  {
    var wire := Env.Wire(e) + Env.Wire(f);
    assert Run(INIT, []) == INIT;
    var s := Then(INIT, Connect(wire));
    assert s == State(Table(map[], []), 0, map[0 := Loop([], wire)], 1);
    assert [] + [e] == [e] && [e] + [f] == [e, f] && Env.Wire(f) + [] == Env.Wire(f);
    Decodes(Table(map[], []), [], e, Env.Wire(f));
    Opens(e, Env.Wire(f));
    var b := Table(map[e.session := 0], [OpenedBy(e)]);
    Decodes(b, [e], f, []);
    Feeds(b, e, f);
  }

  /** The relay has written `e` and then `f`, of two different handlers, whole, to one stream. */
  ghost predicate Wrote(r: Relay.State, e: Env.Envelope, f: Env.Envelope)
  {
    r.outputs != [] && r.outputs[0] == Relay.Output(Env.WireAll([e, f]), [Relay.Sent(1, e), Relay.Sent(2, f)], None)
  }

  /** The read loop is through with the stream of `e` and `f`, and the session that belongs to the
      source of `e` has accepted the payloads of both. */
  ghost predicate Mixed(s: State, e: Env.Envelope, f: Env.Envelope)
  {
    && 0 in s.tasks && s.tasks[0] == Loop([e, f], [])
    && s.table.sessions == map[e.session := 0] && |s.table.conns| == 1
    && var c := s.table.conns[0];
       c.peer == e.src && c.accepted == [e.payload, f.payload] && c.sources == [e.src, f.src]
  }

  /** Two senders that use one session id towards one destination: for any two such envelopes with
      payloads there is a run of the relay, without overlapping forwards, and a run of the far proxy
      on the stream it wrote, after which the session of the first sender has taken both. */
  lemma {:induction false} TwoSourcesOneSession(e: Env.Envelope, f: Env.Envelope)
    requires e.dst == f.dst && 0 < |e.payload| < POW_2_32 && 0 < |f.payload| < POW_2_32
    requires e.streamType == f.streamType == Env.STREAM_DATA && e.session == f.session
    ensures exists actions :: Wrote(Relay.Run(Relay.INIT, actions), e, f)
    ensures exists actions :: Mixed(Run(INIT, actions), e, f)
  {
    RelayWrites(e, f);
    FarMixes(e, f);
  }

  lemma {:induction false} RelayWrites(e: Env.Envelope, f: Env.Envelope)
    requires e.dst == f.dst && 0 < |e.payload| < POW_2_32 && 0 < |f.payload| < POW_2_32
    ensures exists actions :: Wrote(Relay.Run(Relay.INIT, actions), e, f)
  {
    RelayFindings.TwoSources(e, f);
    TwoWires(e, f);
    var actions :| (var o := Relay.Run(Relay.INIT, actions).outputs;
                    o != [] && o[0] == Relay.Output(Env.Wire(e) + Env.Wire(f), [Relay.Sent(1, e), Relay.Sent(2, f)], None));
    assert Wrote(Relay.Run(Relay.INIT, actions), e, f);
  }

  lemma {:induction false} FarMixes(e: Env.Envelope, f: Env.Envelope)
    requires e.streamType == f.streamType == Env.STREAM_DATA && e.session == f.session
    requires |e.payload| < POW_2_32 && |f.payload| < POW_2_32
    ensures exists actions :: Mixed(Run(INIT, actions), e, f)
  {
    BothDispatched(e, f);
    var b := Table(map[e.session := 0], [OpenedBy(e)]);
    var s := State(SendIn(b, 0, f), 0, map[0 := Loop([e, f], [])], 1);
    FirstSend(e);
    assert s.table.conns == [SendTo(OpenedBy(e), f.src, f.payload)];
    assert Mixed(s, e, f);
    var actions :| s == Run(INIT, actions);
  }

  lemma TwoWires(e: Env.Envelope, f: Env.Envelope)
    ensures Env.WireAll([e, f]) == Env.Wire(e) + Env.Wire(f)
  {
    Env.WireAllSnoc([e], f);
    Env.WireAllSnoc([], e);
    assert [e] + [f] == [e, f] && [] + [e] == [e] && [] + Env.Wire(e) == Env.Wire(e);
  }
}

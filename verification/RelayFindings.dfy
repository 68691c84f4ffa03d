/** Runs of the relay that break its table and its streams. Relays.ExactStep and Relays.WholeStep
    give the exact steps at which that happens. */
module RelayFindings {
  import opened Basics
  import opened Env = Envelopes
  import opened Relays

  // ------------------------------------------------------------- building runs

  ghost predicate Leads(s: State, s': State) { exists actions :: s' == Run(s, actions) }

  lemma {:induction false} RunConcat(s: State, a: seq<Action>, b: seq<Action>)
    ensures Run(s, a + b) == Run(Run(s, a), b)
    decreases |b|
  {
    if b == [] {
      assert a + b == a;
    } else {
      RunConcat(s, a, b[..|b| - 1]);
      assert (a + b)[..|a + b| - 1] == a + b[..|b| - 1];
    }
  }

  // One more step at the end of a run.
  lemma Then(s: State, m: State, a: Action) returns (s': State)
    requires Leads(s, m)
    ensures Leads(s, s') && s' == Step(m, a)
  {
    var p :| m == Run(s, p);
    RunConcat(s, p, [a]);
    assert [a][..0] == [];
    assert Run(m, [a]) == Step(Run(m, []), a);
    s' := Step(m, a);
  }

  lemma Nothing(s: State)
    ensures Leads(s, s)
  {
    assert Run(s, []) == s;
  }

  // ------------------------------------------------- overlapping connections

  // Peer `p` has connected twice; handler 0 is registered, handler 1 is not yet.
  lemma TwoAccepted(p: PeerId) returns (s: State)
    ensures Leads(INIT, s) && s.table == map[p := 0] && |s.inputs| == 2 && s.inputs[0].rest == []
    ensures s.handlers == map[0 := Handler(p, Ready), 1 := Handler(p, Accepted)]
  {
    Nothing(INIT);
    s := Then(INIT, INIT, Accept(p, []));
    s := Then(INIT, s, Accept(p, []));
    s := Then(INIT, s, Advance(0));
  }

  /** The table misses a live handler: two overlapping connections of one peer, the second one
      registers, and the first one leaves and takes the entry of the second with it. */
  lemma {:induction false} OverlapUnregisters(p: PeerId)
    ensures exists actions ::
              var s := Run(INIT, actions);
              !Exact(s) && p !in s.table && s.handlers == map[1 := Handler(p, Ready)]
  {
    var s := SecondRegistered(p);
    s := FirstLeaves(s, p);
    assert Registered(s.handlers[1]);
    var actions :| s == Run(INIT, actions);
    assert !Exact(Run(INIT, actions));
  }

  lemma SecondRegistered(p: PeerId) returns (s: State)
    ensures Leads(INIT, s) && |s.inputs| == 2 && s.inputs[0].rest == [] && s.table == map[p := 1]
    ensures s.handlers == map[0 := Handler(p, Ready), 1 := Handler(p, Ready)]
  {
    s := TwoAccepted(p);
    s := Then(INIT, s, Advance(1));
    assert s.handlers == map[0 := Handler(p, Ready), 1 := Handler(p, Ready)];
  }

  lemma FirstLeaves(s: State, p: PeerId) returns (s': State)
    requires Leads(INIT, s) && |s.inputs| == 2 && s.inputs[0].rest == [] && s.table == map[p := 1]
    requires s.handlers == map[0 := Handler(p, Ready), 1 := Handler(p, Ready)]
    ensures Leads(INIT, s') && p !in s'.table && s'.handlers == map[1 := Handler(p, Ready)]
  {
    s' := Then(INIT, s, Advance(0));
    assert s'.handlers == map[0 := Handler(p, Leaving), 1 := Handler(p, Ready)];
    s' := Then(INIT, s', Advance(0));
  }

  // ------------------------------------------------------ overlapping forwards

  const EMPTY := Output([], [], None)

  /** The destination of `e` and `f` is connected as handler 0, their senders as 1 and 2. */
  function TwoSenders(e: Envelope, f: Envelope, i1: Input, i2: Input, p1: Phase, p2: Phase, out: Output): State
  {
    State(map[e.src := 1][f.src := 2][e.dst := 0],
          map[0 := Handler(e.dst, Ready), 1 := Handler(e.src, p1), 2 := Handler(f.src, p2)],
          [Input([], [], []), i1, i2], [out, EMPTY, EMPTY])
  }

  function Unread(e: Envelope): Input { Input(Wire(e), [], Wire(e)) }
  function AllRead(e: Envelope): Input { Input(Wire(e), [e], []) }

  lemma Accepted3(e: Envelope, f: Envelope) returns (s: State)
    ensures Leads(INIT, s) && s.table == map[]
    ensures s.handlers == map[0 := Handler(e.dst, Accepted), 1 := Handler(e.src, Accepted), 2 := Handler(f.src, Accepted)]
    ensures s.inputs == [Input([], [], []), Unread(e), Unread(f)] && s.outputs == [EMPTY, EMPTY, EMPTY]
  {
    Nothing(INIT);
    s := Then(INIT, INIT, Accept(e.dst, []));
    s := Then(INIT, s, Accept(e.src, Wire(e)));
    s := Then(INIT, s, Accept(f.src, Wire(f)));
  }

  lemma Connected3(e: Envelope, f: Envelope)
    ensures Leads(INIT, TwoSenders(e, f, Unread(e), Unread(f), Ready, Ready, EMPTY))
  {
    var s := Accepted3(e, f);
    s := Then(INIT, s, Advance(1));
    s := Then(INIT, s, Advance(2));
    s := Then(INIT, s, Advance(0));
    assert s.handlers == map[0 := Handler(e.dst, Ready), 1 := Handler(e.src, Ready), 2 := Handler(f.src, Ready)];
    assert s == TwoSenders(e, f, Unread(e), Unread(f), Ready, Ready, EMPTY);
  }

  // Both handlers have decoded their envelope and found its destination.
  lemma BothHolding(e: Envelope, f: Envelope)
    requires e.dst == f.dst && |e.payload| < POW_2_32 && |f.payload| < POW_2_32
    ensures Leads(INIT, TwoSenders(e, f, AllRead(e), AllRead(f), Holding(0, e), Holding(0, f), EMPTY))
  {
    Connected3(e, f);
    WholeBody(e);
    WholeBody(f);
    DecodeFirst(e, f);
    DecodeSecond(e, f);
    var s := Then(INIT, TwoSenders(e, f, Unread(e), Unread(f), Ready, Ready, EMPTY), Advance(1));
    s := Then(INIT, s, Advance(2));
  }

  lemma DecodeFirst(e: Envelope, f: Envelope)
    requires Env.Parse(Wire(e)) == Some((e, |Wire(e)|))
    ensures Step(TwoSenders(e, f, Unread(e), Unread(f), Ready, Ready, EMPTY), Advance(1))
            == TwoSenders(e, f, AllRead(e), Unread(f), Holding(0, e), Ready, EMPTY)
  {
    assert [] + [e] == [e] && Wire(e)[|Wire(e)|..] == [];
  }

  lemma DecodeSecond(e: Envelope, f: Envelope)
    requires Env.Parse(Wire(f)) == Some((f, |Wire(f)|)) && e.dst == f.dst
    ensures Step(TwoSenders(e, f, AllRead(e), Unread(f), Holding(0, e), Ready, EMPTY), Advance(2))
            == TwoSenders(e, f, AllRead(e), AllRead(f), Holding(0, e), Holding(0, f), EMPTY)
  {
    assert [] + [f] == [f] && Wire(f)[|Wire(f)|..] == [];
  }

  lemma WholeBody(e: Envelope)
    requires |e.payload| < POW_2_32
    ensures Env.Parse(Wire(e)) == Some((e, |Wire(e)|))
  {
    RoundTrip(e, []);
    assert Wire(e) + [] == Wire(e);
  }

  // Each handler writes its header.
  lemma BothHalfSent(e: Envelope, f: Envelope)
    requires e.dst == f.dst && 0 < |e.payload| < POW_2_32 && 0 < |f.payload| < POW_2_32
    ensures Leads(INIT, TwoSenders(e, f, AllRead(e), AllRead(f), HalfSent(0, e), HalfSent(0, f),
                                   Output(Header(e) + Header(f), [], Some(f))))
  {
    BothHolding(e, f);
    HeaderFirst(e, f, EMPTY);
    var s := Then(INIT, TwoSenders(e, f, AllRead(e), AllRead(f), Holding(0, e), Holding(0, f), EMPTY), Advance(1));
    assert [] + Header(e) == Header(e);
    OverlapHeader(e, f, Output(Header(e), [], Some(e)));
  }

  lemma OverlapHeader(e: Envelope, f: Envelope, o: Output)
    requires Leads(INIT, TwoSenders(e, f, AllRead(e), AllRead(f), HalfSent(0, e), Holding(0, f), o)) && f.payload != []
    ensures Leads(INIT, TwoSenders(e, f, AllRead(e), AllRead(f), HalfSent(0, e), HalfSent(0, f),
                                   o.(bytes := o.bytes + Header(f), open := Some(f))))
  {
    var s := Then(INIT, TwoSenders(e, f, AllRead(e), AllRead(f), HalfSent(0, e), Holding(0, f), o), Advance(2));
    assert s == TwoSenders(e, f, AllRead(e), AllRead(f), HalfSent(0, e), HalfSent(0, f),
                           o.(bytes := o.bytes + Header(f), open := Some(f)));
  }

  // Each handler writes its payload.
  lemma BothSent(e: Envelope, f: Envelope)
    requires e.dst == f.dst && 0 < |e.payload| < POW_2_32 && 0 < |f.payload| < POW_2_32
    ensures Leads(INIT, TwoSenders(e, f, AllRead(e), AllRead(f), Ready, Ready,
                                   Output(Header(e) + Header(f) + e.payload + f.payload, [Sent(1, e), Sent(2, f)], None)))
  {
    BothHalfSent(e, f);
    var o := Output(Header(e) + Header(f), [], Some(f));
    SentFirst(e, f, o);
    SentSecond(e, f, Finish(o, 1, e, e.payload));
    assert [] + [Sent(1, e)] + [Sent(2, f)] == [Sent(1, e), Sent(2, f)];
  }

  lemma SentFirst(e: Envelope, f: Envelope, o: Output)
    requires Leads(INIT, TwoSenders(e, f, AllRead(e), AllRead(f), HalfSent(0, e), HalfSent(0, f), o))
    ensures Leads(INIT, TwoSenders(e, f, AllRead(e), AllRead(f), Ready, HalfSent(0, f), Finish(o, 1, e, e.payload)))
  {
    FinishFirst(e, f, o);
    var _ := Then(INIT, TwoSenders(e, f, AllRead(e), AllRead(f), HalfSent(0, e), HalfSent(0, f), o), Advance(1));
  }

  lemma SentSecond(e: Envelope, f: Envelope, o: Output)
    requires Leads(INIT, TwoSenders(e, f, AllRead(e), AllRead(f), Ready, HalfSent(0, f), o))
    ensures Leads(INIT, TwoSenders(e, f, AllRead(e), AllRead(f), Ready, Ready, Finish(o, 2, f, f.payload)))
  {
    FinishSecond(e, f, o);
    var _ := Then(INIT, TwoSenders(e, f, AllRead(e), AllRead(f), Ready, HalfSent(0, f), o), Advance(2));
  }

  lemma FinishFirst(e: Envelope, f: Envelope, o: Output)
    ensures Step(TwoSenders(e, f, AllRead(e), AllRead(f), HalfSent(0, e), HalfSent(0, f), o), Advance(1))
            == TwoSenders(e, f, AllRead(e), AllRead(f), Ready, HalfSent(0, f), Finish(o, 1, e, e.payload))
  {
  }

  lemma FinishSecond(e: Envelope, f: Envelope, o: Output)
    ensures Step(TwoSenders(e, f, AllRead(e), AllRead(f), Ready, HalfSent(0, f), o), Advance(2))
            == TwoSenders(e, f, AllRead(e), AllRead(f), Ready, Ready, Finish(o, 2, f, f.payload))
  {
  }

  // The destination takes the second header for the first payload.
  lemma {:induction false} Misread(e: Envelope, f: Envelope)
    requires 0 < |e.payload| < POW_2_32 && e.payload[0] != f.version
    ensures var got := ParseAll(Header(e) + Header(f) + e.payload + f.payload); got != [] && got[0] != e
  {
    var tail := Header(f) + e.payload + f.payload;
    assert Header(e) + Header(f) + e.payload + f.payload == Header(e) + tail;
    ParseHeader(e, tail);
    assert tail[..|e.payload|][0] == f.version;
  }

  /** Two handlers forward to one stream at the same time: for any two envelopes of one
      destination with payloads, the first of which does not begin with the other's version byte,
      there is a run after which both are written in full and the first envelope the destination
      decodes is not the first one written. */
  lemma {:induction false} OverlapGarbles(e: Envelope, f: Envelope)
    requires e.dst == f.dst && 0 < |e.payload| < POW_2_32 && 0 < |f.payload| < POW_2_32
    requires e.payload[0] != f.version
    ensures exists actions ::
              var o := Run(INIT, actions).outputs;
              && o != [] && Envs(o[0].log) == [e, f] && o[0].open == None
              && ParseAll(o[0].bytes) != [] && ParseAll(o[0].bytes)[0] != e
  {
    BothSent(e, f);
    Misread(e, f);
    var log := [Sent(1, e), Sent(2, f)];
    assert log[..1] == [Sent(1, e)] && [Sent(1, e)][..0] == [];
    assert Envs([Sent(1, e)]) == Envs([]) + [e];
    assert Envs(log) == [e, f];
    var out := Output(Header(e) + Header(f) + e.payload + f.payload, log, None);
    var s := TwoSenders(e, f, AllRead(e), AllRead(f), Ready, Ready, out);
    var actions :| s == Run(INIT, actions);
    assert Run(INIT, actions).outputs[0] == out;
  }

  // --------------------------------------------------- two sources, one stream

  // The first handler writes both parts, then the second one does.
  lemma HeaderFirst(e: Envelope, f: Envelope, o: Output)
    requires e.payload != []
    ensures Step(TwoSenders(e, f, AllRead(e), AllRead(f), Holding(0, e), Holding(0, f), o), Advance(1))
            == TwoSenders(e, f, AllRead(e), AllRead(f), HalfSent(0, e), Holding(0, f), o.(bytes := o.bytes + Header(e), open := Some(e)))
  {
  }

  lemma PayloadFirst(e: Envelope, f: Envelope, o: Output)
    ensures Step(TwoSenders(e, f, AllRead(e), AllRead(f), HalfSent(0, e), Holding(0, f), o), Advance(1))
            == TwoSenders(e, f, AllRead(e), AllRead(f), Ready, Holding(0, f), Finish(o, 1, e, e.payload))
  {
  }

  lemma HeaderSecond(e: Envelope, f: Envelope, o: Output)
    requires f.payload != []
    ensures Step(TwoSenders(e, f, AllRead(e), AllRead(f), Ready, Holding(0, f), o), Advance(2))
            == TwoSenders(e, f, AllRead(e), AllRead(f), Ready, HalfSent(0, f), o.(bytes := o.bytes + Header(f), open := Some(f)))
  {
  }

  lemma WroteFirst(e: Envelope, f: Envelope)
    requires e.dst == f.dst && 0 < |e.payload| < POW_2_32 && |f.payload| < POW_2_32
    ensures Leads(INIT, TwoSenders(e, f, AllRead(e), AllRead(f), Ready, Holding(0, f), Output(Wire(e), [Sent(1, e)], None)))
  {
    BothHolding(e, f);
    HeaderFirst(e, f, EMPTY);
    var o := Output(Header(e), [], Some(e));
    assert [] + Header(e) == Header(e);
    PayloadFirst(e, f, o);
    var s := Then(INIT, TwoSenders(e, f, AllRead(e), AllRead(f), Holding(0, e), Holding(0, f), EMPTY), Advance(1));
    s := Then(INIT, s, Advance(1));
    assert [] + [Sent(1, e)] == [Sent(1, e)];
  }

  lemma WroteSecond(e: Envelope, f: Envelope, o: Output)
    requires Leads(INIT, TwoSenders(e, f, AllRead(e), AllRead(f), Ready, Holding(0, f), o)) && f.payload != []
    ensures Leads(INIT, TwoSenders(e, f, AllRead(e), AllRead(f), Ready, HalfSent(0, f), o.(bytes := o.bytes + Header(f), open := Some(f))))
  {
    HeaderSecond(e, f, o);
    var _ := Then(INIT, TwoSenders(e, f, AllRead(e), AllRead(f), Ready, Holding(0, f), o), Advance(2));
  }

  /** Two sources and no overlap: any two envelopes of one destination with payloads reach its
      stream whole, one after the other. */
  lemma {:induction false} TwoSources(e: Envelope, f: Envelope)
    requires e.dst == f.dst && 0 < |e.payload| < POW_2_32 && 0 < |f.payload| < POW_2_32
    ensures exists actions ::
              var o := Run(INIT, actions).outputs;
              o != [] && o[0] == Output(Wire(e) + Wire(f), [Sent(1, e), Sent(2, f)], None)
  {
    WroteFirst(e, f);
    var o := Output(Wire(e), [Sent(1, e)], None);
    WroteSecond(e, f, o);
    var o1 := o.(bytes := o.bytes + Header(f), open := Some(f));
    SentSecond(e, f, o1);
    Assoc(Wire(e), Header(f), f.payload);
    var out := Finish(o1, 2, f, f.payload);
    assert out == Output(Wire(e) + Wire(f), [Sent(1, e), Sent(2, f)], None);
    var actions :| TwoSenders(e, f, AllRead(e), AllRead(f), Ready, Ready, out) == Run(INIT, actions);
    assert Run(INIT, actions).outputs[0] == out;
  }
}

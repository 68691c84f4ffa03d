/** The relay of internal/relay/relay.go: one handler per CONNECT stream, a table from peer to
    stream, and forwarding by destination. A handler decodes an envelope, looks its destination
    up under the lock, and writes header and payload with two unlocked writes. */
module Relays {
  import opened Basics
  import opened Env = Envelopes

  /** A handler and the stream it serves, by order of arrival. */
  type Hid = nat

  datatype Phase =
    | Accepted                              // response sent, not yet registered
    | Ready                                 // about to decode the next envelope
    | Holding(dst: Hid, env: Envelope)      // destination found, nothing written
    | HalfSent(dst: Hid, env: Envelope)     // header written, payload not
    | Leaving                               // decode failed, not yet unregistered

  datatype Handler = Handler(peer: PeerId, phase: Phase)

  datatype Sent = Sent(from: Hid, env: Envelope)

  /** What a handler reads: the whole body, what it has decoded and what is left. */
  datatype Input = Input(body: Bytes, consumed: seq<Envelope>, rest: Bytes)

  /** What a stream was sent: its bytes, the envelopes written in full with the handler that
      wrote them, and the envelope whose payload is still missing. */
  datatype Output = Output(bytes: Bytes, log: seq<Sent>, open: Option<Envelope>)

  datatype State = State(table: map<PeerId, Hid>, handlers: map<Hid, Handler>,
                         inputs: seq<Input>, outputs: seq<Output>)

  const INIT := State(map[], map[], [], [])

  datatype Action =
    | Accept(peer: PeerId, body: Bytes)
    | Advance(h: Hid)

  function Goto(s: State, h: Hid, k: Handler): State { s.(handlers := s.handlers[h := k]) }

  function Finish(o: Output, from: Hid, e: Envelope, bytes: Bytes): Output
  {
    Output(o.bytes + bytes, o.log + [Sent(from, e)], None)
  }

  /** One loop round up to the lookup. */
  function DecodeNext(s: State, h: Hid, k: Handler): State
    requires h < |s.inputs|
  {
    var i := s.inputs[h];
    match Env.Parse(i.rest)
    case None => Goto(s, h, k.(phase := Leaving))
    case Some((e, n)) =>
      Goto(s.(inputs := s.inputs[h := Input(i.body, i.consumed + [e], i.rest[n..])]), h,
           k.(phase := if e.dst in s.table then Holding(s.table[e.dst], e) else Ready))
  }

  /** The header write; an envelope without payload is then complete. A stream whose handler has
      returned refuses the write. */
  function WriteHeader(s: State, h: Hid, k: Handler, d: Hid, e: Envelope): State
  {
    if d !in s.handlers || d >= |s.outputs| then Goto(s, h, k.(phase := Ready))
    else
      var o := s.outputs[d];
      if e.payload == [] then
        Goto(s.(outputs := s.outputs[d := Finish(o, h, e, Header(e))]), h, k.(phase := Ready))
      else
        Goto(s.(outputs := s.outputs[d := o.(bytes := o.bytes + Header(e), open := Some(e))]), h,
             k.(phase := HalfSent(d, e)))
  }

  function WritePayload(s: State, h: Hid, k: Handler, d: Hid, e: Envelope): State
  {
    if d !in s.handlers || d >= |s.outputs| then Goto(s, h, k.(phase := Ready))
    else
      Goto(s.(outputs := s.outputs[d := Finish(s.outputs[d], h, e, e.payload)]), h, k.(phase := Ready))
  }

  function Step(s: State, a: Action): State
  {
    match a
    case Accept(peer, body) =>
      State(s.table, s.handlers[|s.inputs| := Handler(peer, Accepted)],
            s.inputs + [Input(body, [], body)], s.outputs + [Output([], [], None)])
    case Advance(h) =>
      if h !in s.handlers || h >= |s.inputs| then s
      else
        var k := s.handlers[h];
        match k.phase
        case Accepted => Goto(s.(table := s.table[k.peer := h]), h, k.(phase := Ready))
        case Ready => DecodeNext(s, h, k)
        case Holding(d, e) => WriteHeader(s, h, k, d, e)
        case HalfSent(d, e) => WritePayload(s, h, k, d, e)
        case Leaving => s.(table := s.table - {k.peer}, handlers := s.handlers - {h})
  }

  function Run(s: State, actions: seq<Action>): State
  {
    if actions == [] then s else Step(Run(s, actions[..|actions| - 1]), actions[|actions| - 1])
  }

  // ---------------------------------------------------------- table liveness

  predicate Registered(k: Handler) { !k.phase.Accepted? }

  /** A stream in the table belongs to a handler of that peer which has not unregistered. */
  ghost predicate LiveInv(s: State)
  {
    && |s.inputs| == |s.outputs|
    && (forall h :: h in s.handlers ==> h < |s.inputs|)
    && (forall p :: p in s.table ==>
          s.table[p] in s.handlers && s.handlers[s.table[p]].peer == p && Registered(s.handlers[s.table[p]]))
  }

  lemma StepKeepsLive(s: State, a: Action)
    requires LiveInv(s)
    ensures LiveInv(Step(s, a))
  {
  }

  /** Relay table liveness over every interleaving of overlapping connects and disconnects. */
  lemma {:induction false} TableIsLive(actions: seq<Action>)
    ensures LiveInv(Run(INIT, actions))
    decreases |actions|
  {
    if actions == [] {
    } else {
      TableIsLive(actions[..|actions| - 1]);
      StepKeepsLive(Run(INIT, actions[..|actions| - 1]), actions[|actions| - 1]);
    }
  }

  /** The table holds exactly the registered handlers. */
  ghost predicate Exact(s: State)
  {
    forall h :: h in s.handlers && Registered(s.handlers[h]) ==>
      s.handlers[h].peer in s.table && s.table[s.handlers[h].peer] == h
  }

  /** The step registers a peer one of whose earlier connections is still registered. */
  ghost predicate Overlaps(s: State, a: Action)
  {
    a.Advance? && a.h in s.handlers && s.handlers[a.h].phase.Accepted? &&
    exists g :: g in s.handlers && Registered(s.handlers[g]) && s.handlers[g].peer == s.handlers[a.h].peer
  }

  /** Exactly the overlapping registrations make a registered handler unreachable. */
  lemma ExactStep(s: State, a: Action)
    requires LiveInv(s) && Exact(s)
    ensures Exact(Step(s, a)) <==> !Overlaps(s, a)
  {
    if Overlaps(s, a) {
      var g :| g in s.handlers && Registered(s.handlers[g]) && s.handlers[g].peer == s.handlers[a.h].peer;
      assert g in Step(s, a).handlers && Step(s, a).handlers[g] == s.handlers[g];
    }
  }

  ghost predicate NoOverlap(actions: seq<Action>)
  {
    actions == [] ||
    (var init := actions[..|actions| - 1];
     NoOverlap(init) && !Overlaps(Run(INIT, init), actions[|actions| - 1]))
  }

  /** When the connections of a peer never overlap, the table is exactly the live handlers. */
  lemma {:induction false} TableIsExact(actions: seq<Action>)
    requires NoOverlap(actions)
    ensures Exact(Run(INIT, actions))
    decreases |actions|
  {
    if actions == [] {
    } else {
      var init := actions[..|actions| - 1];
      TableIsExact(init);
      TableIsLive(init);
      ExactStep(Run(INIT, init), actions[|actions| - 1]);
    }
  }

  // ------------------------------------------------- transparency and order

  function Envs(log: seq<Sent>): seq<Envelope>
  {
    if log == [] then [] else Envs(log[..|log| - 1]) + [log[|log| - 1].env]
  }

  /** The envelopes of the log that handler `h` wrote. */
  function From(log: seq<Sent>, h: Hid): seq<Envelope>
  {
    if log == [] then []
    else
      var x := log[|log| - 1];
      From(log[..|log| - 1], h) + if x.from == h then [x.env] else []
  }

  lemma {:induction false} LogSnoc(log: seq<Sent>, x: Sent, h: Hid)
    ensures Envs(log + [x]) == Envs(log) + [x.env]
    ensures From(log + [x], h) == if x.from == h then From(log, h) + [x.env] else From(log, h)
  {
    assert (log + [x])[..|log|] == log;
    assert From(log, h) + [] == From(log, h);
  }

  /** What a body decodes to so far re-encodes to exactly the bytes read. */
  ghost predicate InputInv(i: Input)
  {
    i.body == WireAll(i.consumed) + i.rest && Sendable(i.consumed)
  }

  /** The stream holds whole envelopes, except for the one being written. */
  ghost predicate OutputInv(o: Output)
  {
    && o.bytes == WireAll(Envs(o.log)) + (if o.open.Some? then Header(o.open.value) else [])
    && Sendable(Envs(o.log))
    && (o.open.Some? ==> 0 < |o.open.value.payload| < POW_2_32)
  }

  predicate InFlight(p: Phase) { p.Holding? || p.HalfSent? }

  /** The envelope a handler carries is the last one it decoded. */
  ghost predicate CarryInv(p: Phase, i: Input, streams: nat)
  {
    InFlight(p) ==>
      && i.consumed != [] && i.consumed[|i.consumed| - 1] == p.env && |p.env.payload| < POW_2_32
      && p.dst < streams
      && (p.HalfSent? ==> p.env.payload != [])
  }

  /** Handler `h` has written a header to the live stream `d` and owes it the payload. */
  ghost predicate Owes(s: State, h: Hid, d: Hid)
  {
    h in s.handlers && d in s.handlers && s.handlers[h].phase.HalfSent? && s.handlers[h].phase.dst == d
  }

  ghost predicate OwesInv(s: State)
  {
    && (forall h: Hid, d: Hid :: Owes(s, h, d) && d < |s.outputs| ==> s.outputs[d].open == Some(s.handlers[h].phase.env))
    && (forall g: Hid, h: Hid, d: Hid :: Owes(s, g, d) && Owes(s, h, d) ==> g == h)
  }

  ghost predicate CarriesInv(s: State)
  {
    && (forall h :: h in s.handlers ==> h < |s.inputs|)
    && (forall h :: h in s.handlers ==> CarryInv(s.handlers[h].phase, s.inputs[h], |s.outputs|))
  }

  ghost predicate InputsInv(s: State)
  {
    forall i :: 0 <= i < |s.inputs| ==> InputInv(s.inputs[i])
  }

  ghost predicate OutputsInv(s: State)
  {
    forall i :: 0 <= i < |s.outputs| ==> OutputInv(s.outputs[i])
  }

  ghost predicate WholeInv(s: State)
  {
    LiveInv(s) && InputsInv(s) && OutputsInv(s) && CarriesInv(s) && OwesInv(s)
  }

  /** Of two forwards to one live stream the second starts only when the first is complete. */
  ghost predicate Exclusive(s: State, a: Action)
  {
    a.Advance? && a.h in s.handlers && s.handlers[a.h].phase.Holding?
      && s.handlers[a.h].phase.dst < |s.outputs| && s.handlers[a.h].phase.dst in s.handlers
    ==> s.outputs[s.handlers[a.h].phase.dst].open == None
  }

  lemma InputStep(i: Input)
    requires InputInv(i) && Env.Parse(i.rest).Some?
    ensures var (e, n) := Env.Parse(i.rest).value;
            InputInv(Input(i.body, i.consumed + [e], i.rest[n..])) && |e.payload| < POW_2_32
  {
    var (e, n) := Env.Parse(i.rest).value;
    Reencode(i.rest);
    WireAllSnoc(i.consumed, e);
    Reassemble(i.body, WireAll(i.consumed), i.rest, n);
  }

  lemma Reassemble(all: Bytes, a: Bytes, b: Bytes, n: nat)
    requires all == a + b && n <= |b|
    ensures all == a + b[..n] + b[n..]
  {
  }

  lemma HeaderStep(o: Output, e: Envelope)
    requires OutputInv(o) && o.open == None && 0 < |e.payload| < POW_2_32
    ensures OutputInv(o.(bytes := o.bytes + Header(e), open := Some(e)))
  {
    assert o.bytes == WireAll(Envs(o.log));
  }

  lemma FinishStep(o: Output, h: Hid, e: Envelope, bytes: Bytes)
    requires OutputInv(o) && |e.payload| < POW_2_32
    requires if e.payload == [] then o.open == None && bytes == Header(e)
             else o.open == Some(e) && bytes == e.payload
    ensures OutputInv(Finish(o, h, e, bytes))
  {
    LogSnoc(o.log, Sent(h, e), h);
    WireAllSnoc(Envs(o.log), e);
    FinishBytes(WireAll(Envs(o.log)), e);
  }

  lemma FinishBytes(w: Bytes, e: Envelope)
    ensures (w + (if e.payload == [] then [] else Header(e))) + (if e.payload == [] then Header(e) else e.payload)
            == (w + Wire(e)) + []
  {
  }

  lemma StepKeepsInputs(s: State, a: Action)
    requires InputsInv(s)
    ensures InputsInv(Step(s, a))
  {
    if a.Accept? {
      assert InputInv(Input(a.body, [], a.body)) by { assert [] + a.body == a.body; }
    } else if a.h in s.handlers && a.h < |s.inputs| && s.handlers[a.h].phase.Ready?
              && Env.Parse(s.inputs[a.h].rest).Some? {
      InputStep(s.inputs[a.h]);
    }
  }

  lemma DecodeKeepsCarries(s: State, h: Hid)
    requires LiveInv(s) && CarriesInv(s) && h in s.handlers
    ensures CarriesInv(DecodeNext(s, h, s.handlers[h]))
  {
    if Env.Parse(s.inputs[h].rest).Some? {
      Reencode(s.inputs[h].rest);
    }
  }

  lemma StepKeepsCarries(s: State, a: Action)
    requires LiveInv(s) && CarriesInv(s)
    ensures CarriesInv(Step(s, a))
  {
    if a.Advance? && a.h in s.handlers {
      match s.handlers[a.h].phase
      case Ready => DecodeKeepsCarries(s, a.h);
      case Holding(_, _) => WriteKeepsCarries(s, a.h);
      case HalfSent(_, _) => WriteKeepsCarries(s, a.h);
      case _ =>
    }
  }

  lemma WriteKeepsCarries(s: State, h: Hid)
    requires LiveInv(s) && CarriesInv(s) && h in s.handlers && InFlight(s.handlers[h].phase)
    ensures CarriesInv(Step(s, Advance(h)))
  {
  }

  // A step that starts no write leaves the debts as they are or drops some.
  lemma FewerDebts(s: State, s': State)
    requires OwesInv(s)
    requires forall h: Hid, d: Hid :: Owes(s', h, d) ==>
               Owes(s, h, d) && s'.handlers[h].phase == s.handlers[h].phase
    requires forall h: Hid, d: Hid :: Owes(s', h, d) && d < |s'.outputs| ==>
               d < |s.outputs| && s'.outputs[d].open == s.outputs[d].open
    ensures OwesInv(s')
  {
  }

  lemma StepKeepsOwes(s: State, a: Action)
    requires LiveInv(s) && CarriesInv(s) && OwesInv(s) && Exclusive(s, a)
    ensures OwesInv(Step(s, a))
  {
    var s' := Step(s, a);
    if a.Accept? {
      FewerDebts(s, s');
    } else if a.h in s.handlers {
      match s.handlers[a.h].phase
      case Holding(d, e) => HeaderKeepsOwes(s, a.h, d, e);
      case HalfSent(d, e) => PayloadKeepsOwes(s, a.h, d, e);
      case _ => FewerDebts(s, s');
    }
  }

  lemma HeaderKeepsOwes(s: State, h: Hid, d: Hid, e: Envelope)
    requires LiveInv(s) && CarriesInv(s) && OwesInv(s) && Exclusive(s, Advance(h))
    requires h in s.handlers && s.handlers[h].phase == Holding(d, e)
    ensures OwesInv(WriteHeader(s, h, s.handlers[h], d, e))
  {
    var s' := WriteHeader(s, h, s.handlers[h], d, e);
    if d in s.handlers {
      assert forall g: Hid :: !Owes(s, g, d);
      assert forall g: Hid, c: Hid :: Owes(s', g, c) && g != h ==> Owes(s, g, c) && c != d;
    } else {
      FewerDebts(s, s');
    }
  }

  lemma PayloadKeepsOwes(s: State, h: Hid, d: Hid, e: Envelope)
    requires LiveInv(s) && CarriesInv(s) && OwesInv(s)
    requires h in s.handlers && s.handlers[h].phase == HalfSent(d, e)
    ensures OwesInv(WritePayload(s, h, s.handlers[h], d, e))
  {
    var s' := WritePayload(s, h, s.handlers[h], d, e);
    forall g: Hid, c: Hid | Owes(s', g, c) ensures Owes(s, g, c) && g != h && c != d {
      assert g != h && Owes(s, g, c);
      if c == d { assert Owes(s, h, d); }
    }
    FewerDebts(s, s');
  }

  // One output is replaced.
  lemma UpdateOutputs(s: State, s': State, d: Hid, o: Output)
    requires OutputsInv(s) && d < |s.outputs| && OutputInv(o) && s'.outputs == s.outputs[d := o]
    ensures OutputsInv(s')
  {
  }

  lemma HeaderKeepsOutputs(s: State, h: Hid, d: Hid, e: Envelope)
    requires CarriesInv(s) && OutputsInv(s) && Exclusive(s, Advance(h))
    requires h in s.handlers && s.handlers[h].phase == Holding(d, e)
    ensures OutputsInv(WriteHeader(s, h, s.handlers[h], d, e))
  {
    if d in s.handlers {
      var o, s' := s.outputs[d], WriteHeader(s, h, s.handlers[h], d, e);
      if e.payload == [] { FinishStep(o, h, e, Header(e)); } else { HeaderStep(o, e); }
      UpdateOutputs(s, s', d, s'.outputs[d]);
    }
  }

  lemma PayloadKeepsOutputs(s: State, h: Hid, d: Hid, e: Envelope)
    requires CarriesInv(s) && OwesInv(s) && OutputsInv(s)
    requires h in s.handlers && s.handlers[h].phase == HalfSent(d, e)
    ensures OutputsInv(WritePayload(s, h, s.handlers[h], d, e))
  {
    if d in s.handlers {
      assert Owes(s, h, d);
      FinishStep(s.outputs[d], h, e, e.payload);
      UpdateOutputs(s, WritePayload(s, h, s.handlers[h], d, e), d, Finish(s.outputs[d], h, e, e.payload));
    }
  }

  lemma StepKeepsOutputs(s: State, a: Action)
    requires LiveInv(s) && CarriesInv(s) && OwesInv(s) && OutputsInv(s) && Exclusive(s, a)
    ensures OutputsInv(Step(s, a))
  {
    if a.Accept? {
      assert OutputInv(Output([], [], None));
    } else if a.h in s.handlers {
      match s.handlers[a.h].phase
      case Holding(d, e) => HeaderKeepsOutputs(s, a.h, d, e);
      case HalfSent(d, e) => PayloadKeepsOutputs(s, a.h, d, e);
      case _ =>
    }
  }

  lemma StepKeepsWhole(s: State, a: Action)
    requires WholeInv(s) && Exclusive(s, a)
    ensures WholeInv(Step(s, a))
  {
    StepKeepsLive(s, a);
    StepKeepsInputs(s, a);
    StepKeepsCarries(s, a);
    StepKeepsOwes(s, a);
    StepKeepsOutputs(s, a);
  }

  // A second header on a stream that is owed a payload: the bytes no longer add up.
  lemma OverlapBreaks(s: State, a: Action)
    requires WholeInv(s) && !Exclusive(s, a)
    ensures !OutputsInv(Step(s, a))
  {
    var d, e := s.handlers[a.h].phase.dst, s.handlers[a.h].phase.env;
    var o, o' := s.outputs[d], Step(s, a).outputs[d];
    LogSnoc(o.log, Sent(a.h, e), a.h);
    WireAllSnoc(Envs(o.log), e);
    assert |o'.bytes| == |WireAll(Envs(o.log))| + 148;
    assert !OutputInv(o');
  }

  /** Exactly the second of two overlapping forwards to one live stream breaks the relay's
      streams: after any other step every stream is whole envelopes, up to one being written. */
  lemma WholeStep(s: State, a: Action)
    requires WholeInv(s)
    ensures WholeInv(Step(s, a)) <==> Exclusive(s, a)
  {
    if Exclusive(s, a) { StepKeepsWhole(s, a); } else { OverlapBreaks(s, a); }
  }

  ghost predicate OneForwardAtATime(actions: seq<Action>)
  {
    actions == [] ||
    (var init := actions[..|actions| - 1];
     OneForwardAtATime(init) && Exclusive(Run(INIT, init), actions[|actions| - 1]))
  }

  lemma {:induction false} RunKeepsWhole(actions: seq<Action>)
    requires OneForwardAtATime(actions)
    ensures WholeInv(Run(INIT, actions))
    decreases |actions|
  {
    if actions == [] {
    } else {
      var init := actions[..|actions| - 1];
      RunKeepsWhole(init);
      StepKeepsWhole(Run(INIT, init), actions[|actions| - 1]);
    }
  }

  /** Transparency: with one forward per destination at a time, every stream decodes to exactly
      the envelopes written to it, and every body is the re-encoding of what was read from it. */
  lemma {:induction false} Transparent(actions: seq<Action>, d: Hid)
    requires OneForwardAtATime(actions) && d < |Run(INIT, actions).outputs|
    ensures var s := Run(INIT, actions);
            && ParseAll(s.outputs[d].bytes) == Envs(s.outputs[d].log)
            && d < |s.inputs| && s.inputs[d].body == WireAll(s.inputs[d].consumed) + s.inputs[d].rest
  {
    RunKeepsWhole(actions);
    OutputDecodes(Run(INIT, actions).outputs[d]);
  }

  lemma {:induction false} OutputDecodes(o: Output)
    requires OutputInv(o)
    ensures ParseAll(o.bytes) == Envs(o.log)
  {
    var es := Envs(o.log);
    var tail := if o.open.Some? then Header(o.open.value) else [];
    ParseAllWire(es, tail);
    if o.open.Some? {
      ParseHeader(o.open.value, []);
      assert tail + [] == tail;
    }
    assert ParseAll(tail) == [];
    assert es + [] == es;
  }

  /** What handler `h` has decoded and no longer carries. */
  function Settled(s: State, h: Hid): seq<Envelope>
    requires h < |s.inputs|
  {
    var c := s.inputs[h].consumed;
    if h in s.handlers && InFlight(s.handlers[h].phase) && c != [] then c[..|c| - 1] else c
  }

  /** Of what `h` has decoded, stream `d` holds an in-order selection. */
  ghost predicate Ordered(s: State, h: Hid, d: Hid)
  {
    d < |s.outputs| ==>
      if h < |s.inputs| then SubSeq(From(s.outputs[d].log, h), Settled(s, h))
      else From(s.outputs[d].log, h) == []
  }

  ghost predicate OrderInv(s: State)
  {
    forall h: Hid, d: Hid :: Ordered(s, h, d)
  }

  // A step of handler `g` as seen by another handler `h` on stream `d`.
  lemma {:induction false} OtherFrame(s: State, g: Hid, h: Hid, d: Hid)
    requires LiveInv(s) && g in s.handlers && g != h && d < |s.outputs|
    ensures var s' := Step(s, Advance(g));
            && |s'.inputs| == |s.inputs| && |s'.outputs| == |s.outputs|
            && (h < |s.inputs| ==> s'.inputs[h] == s.inputs[h])
            && (h in s'.handlers <==> h in s.handlers)
            && (h in s.handlers ==> s'.handlers[h] == s.handlers[h])
            && From(s'.outputs[d].log, h) == From(s.outputs[d].log, h)
  {
    match s.handlers[g].phase
    case Ready => DecodeFrame(s, g, h);
    case Holding(c, e) => LogSnoc(s.outputs[d].log, Sent(g, e), h);
    case HalfSent(c, e) => LogSnoc(s.outputs[d].log, Sent(g, e), h);
    case _ =>
  }

  lemma DecodeFrame(s: State, g: Hid, h: Hid)
    requires LiveInv(s) && g in s.handlers && g != h
    ensures var s' := DecodeNext(s, g, s.handlers[g]);
            && |s'.inputs| == |s.inputs| && s'.outputs == s.outputs
            && (h < |s.inputs| ==> s'.inputs[h] == s.inputs[h])
            && (h in s'.handlers <==> h in s.handlers)
            && (h in s.handlers ==> s'.handlers[h] == s.handlers[h])
  {
  }

  lemma OthersOrdered(s: State, g: Hid, h: Hid, d: Hid)
    requires LiveInv(s) && g in s.handlers && g != h && Ordered(s, h, d)
    ensures Ordered(Step(s, Advance(g)), h, d)
  {
    if d < |s.outputs| {
      OtherFrame(s, g, h, d);
    }
  }

  // The handler that moves: either nothing settles, or the carried envelope does, and it lands
  // on stream `d` or not.
  lemma MoverOrdered(s: State, h: Hid, d: Hid)
    requires LiveInv(s) && CarriesInv(s) && h in s.handlers && Ordered(s, h, d)
    ensures Ordered(Step(s, Advance(h)), h, d)
  {
    var s' := Step(s, Advance(h));
    if d < |s.outputs| {
      var log, c := s.outputs[d].log, s.inputs[h].consumed;
      match s.handlers[h].phase
      case Ready =>
        match Env.Parse(s.inputs[h].rest) {
          case None =>
          case Some((e, n)) =>
            assert (c + [e])[..|c|] == c;
            SubSeqSkip(From(log, h), c, e);
        }
      case Accepted =>
      case Leaving =>
      case _ => WriterOrdered(s, h, d);
    }
  }

  // What a write step does: the carried envelope lands on its stream, or is refused, or the
  // handler still carries it.
  lemma WriteEffect(s: State, h: Hid, d: Hid)
    requires LiveInv(s) && CarriesInv(s) && h in s.handlers && InFlight(s.handlers[h].phase) && d < |s.outputs|
    ensures var s' := Step(s, Advance(h));
            var e := s.handlers[h].phase.env;
            && s'.inputs == s.inputs && |s'.outputs| == |s.outputs| && h in s'.handlers
            && (s'.outputs[d].log == s.outputs[d].log
                || (s'.outputs[d].log == s.outputs[d].log + [Sent(h, e)] && s'.handlers[h].phase.Ready?))
            && (s'.handlers[h].phase.Ready? || InFlight(s'.handlers[h].phase))
  {
  }

  lemma WriterOrdered(s: State, h: Hid, d: Hid)
    requires LiveInv(s) && CarriesInv(s) && h in s.handlers && InFlight(s.handlers[h].phase)
    requires d < |s.outputs| && Ordered(s, h, d)
    ensures Ordered(Step(s, Advance(h)), h, d)
  {
    var e, log, c := s.handlers[h].phase.env, s.outputs[d].log, s.inputs[h].consumed;
    WriteEffect(s, h, d);
    assert c == Settled(s, h) + [e];
    SubSeqSkip(From(log, h), Settled(s, h), e);
    SubSeqKeep(From(log, h), Settled(s, h), e);
    LogSnoc(log, Sent(h, e), h);
  }

  lemma AcceptOrdered(s: State, a: Action, h: Hid, d: Hid)
    requires LiveInv(s) && a.Accept? && Ordered(s, h, d)
    ensures Ordered(Step(s, a), h, d)
  {
    var s' := Step(s, a);
    if h < |s.inputs| && d < |s.outputs| {
      assert Settled(s', h) == Settled(s, h);
    }
  }

  lemma StepKeepsOrder(s: State, a: Action)
    requires LiveInv(s) && CarriesInv(s) && OrderInv(s)
    ensures OrderInv(Step(s, a))
  {
    forall h: Hid, d: Hid ensures Ordered(Step(s, a), h, d) {
      assert Ordered(s, h, d);
      if a.Accept? {
        AcceptOrdered(s, a, h, d);
      } else if a.h in s.handlers {
        if a.h == h { MoverOrdered(s, h, d); } else { OthersOrdered(s, a.h, h, d); }
      }
    }
  }

  /** Order, over every run whatsoever: per source, a destination is sent an in-order selection
      of the envelopes read from that source. */
  lemma {:induction false} ForwardingKeepsOrder(actions: seq<Action>)
    ensures LiveInv(Run(INIT, actions)) && CarriesInv(Run(INIT, actions)) && OrderInv(Run(INIT, actions))
    decreases |actions|
  {
    if actions == [] {
    } else {
      var init, a := actions[..|actions| - 1], actions[|actions| - 1];
      ForwardingKeepsOrder(init);
      StepKeepsLive(Run(INIT, init), a);
      StepKeepsCarries(Run(INIT, init), a);
      StepKeepsOrder(Run(INIT, init), a);
    }
  }

  // ------------------------------------------------------------ steady route

  function ToPeer(es: seq<Envelope>, p: PeerId): seq<Envelope>
  {
    if es == [] then []
    else
      var e := es[|es| - 1];
      ToPeer(es[..|es| - 1], p) + if e.dst == p then [e] else []
  }

  lemma {:induction false} ToPeerSnoc(es: seq<Envelope>, e: Envelope, p: PeerId)
    ensures ToPeer(es + [e], p) == ToPeer(es, p) + if e.dst == p then [e] else []
  {
    assert (es + [e])[..|es|] == es;
  }

  /** Peer `p` is connected and its stream is `d`. */
  predicate Steady(s: State, p: PeerId, d: Hid) { p in s.table && s.table[p] == d }

  function Carried(s: State, h: Hid, d: Hid): seq<Envelope>
  {
    if h in s.handlers && InFlight(s.handlers[h].phase) && s.handlers[h].phase.dst == d
    then [s.handlers[h].phase.env] else []
  }

  /** What `h` read for peer `p` is exactly what stream `d` got from it, and what it carries. */
  ghost predicate Routed(s: State, h: Hid, p: PeerId, d: Hid)
  {
    && h < |s.inputs| && d < |s.outputs|
    && From(s.outputs[d].log, h) + Carried(s, h, d) == ToPeer(s.inputs[h].consumed, p)
    && (h in s.handlers && InFlight(s.handlers[h].phase) ==>
          (s.handlers[h].phase.env.dst == p <==> s.handlers[h].phase.dst == d))
  }

  lemma OthersRouted(s: State, g: Hid, h: Hid, p: PeerId, d: Hid)
    requires LiveInv(s) && g in s.handlers && g != h && Routed(s, h, p, d)
    ensures Routed(Step(s, Advance(g)), h, p, d)
  {
    OtherFrame(s, g, h, d);
  }

  // What a decoding step leaves in the hands of `h` for stream `d`.
  lemma DecodeCarries(s: State, h: Hid, p: PeerId, d: Hid)
    requires LiveInv(s) && Steady(s, p, d)
    requires h in s.handlers && s.handlers[h].phase.Ready? && Env.Parse(s.inputs[h].rest).Some?
    ensures var e := Env.Parse(s.inputs[h].rest).value.0;
            var s' := Step(s, Advance(h));
            && s'.outputs == s.outputs && |s'.inputs| == |s.inputs|
            && s'.inputs[h].consumed == s.inputs[h].consumed + [e]
            && Carried(s', h, d) == (if e.dst == p then [e] else [])
            && h in s'.handlers
            && (InFlight(s'.handlers[h].phase) ==>
                  s'.handlers[h].phase.env == e && (e.dst == p <==> s'.handlers[h].phase.dst == d))
  {
  }

  lemma ReaderRouted(s: State, h: Hid, p: PeerId, d: Hid)
    requires LiveInv(s) && Steady(s, p, d) && Routed(s, h, p, d)
    requires h in s.handlers && s.handlers[h].phase.Ready?
    ensures Routed(Step(s, Advance(h)), h, p, d)
  {
    var i := s.inputs[h];
    if Env.Parse(i.rest).Some? {
      DecodeCarries(s, h, p, d);
      ToPeerSnoc(i.consumed, Env.Parse(i.rest).value.0, p);
    }
  }

  lemma WriterRouted(s: State, h: Hid, p: PeerId, d: Hid)
    requires LiveInv(s) && Steady(s, p, d) && Routed(s, h, p, d)
    requires h in s.handlers && InFlight(s.handlers[h].phase)
    ensures Routed(Step(s, Advance(h)), h, p, d)
  {
    var e := s.handlers[h].phase.env;
    WriteLands(s, h, d);
    LogSnoc(s.outputs[d].log, Sent(h, e), h);
    assert From(s.outputs[d].log, h) + [] == From(s.outputs[d].log, h);
  }

  // What a write step does to a live stream `d`: the handler still carries the envelope there, or it
  // has landed there, or it was for another stream.
  lemma WriteLands(s: State, h: Hid, d: Hid)
    requires LiveInv(s) && h in s.handlers && InFlight(s.handlers[h].phase) && d in s.handlers && d < |s.outputs|
    ensures var s', k := Step(s, Advance(h)), s.handlers[h].phase;
            && s'.inputs == s.inputs && |s'.outputs| == |s.outputs| && h in s'.handlers
            && (s'.outputs[d].log, Carried(s', h, d)) ==
               (if k.dst != d || InFlight(s'.handlers[h].phase) then (s.outputs[d].log, Carried(s, h, d))
                else (s.outputs[d].log + [Sent(h, k.env)], []))
            && (InFlight(s'.handlers[h].phase) ==> s'.handlers[h].phase.dst == k.dst && s'.handlers[h].phase.env == k.env)
  {
  }

  lemma StepKeepsRoute(s: State, a: Action, h: Hid, p: PeerId, d: Hid)
    requires LiveInv(s) && Steady(s, p, d) && Routed(s, h, p, d)
    ensures Routed(Step(s, a), h, p, d)
  {
    if a.Advance? && a.h in s.handlers {
      if a.h != h {
        OthersRouted(s, a.h, h, p, d);
      } else if InFlight(s.handlers[h].phase) {
        WriterRouted(s, h, p, d);
      } else if s.handlers[h].phase.Ready? {
        ReaderRouted(s, h, p, d);
      }
    }
  }

  lemma StepKeepsBody(s: State, a: Action, h: Hid)
    requires h < |s.inputs|
    ensures h < |Step(s, a).inputs| && Step(s, a).inputs[h].body == s.inputs[h].body
  {
  }

  lemma StepKeepsTraffic(s: State, a: Action, h: Hid, p: PeerId, d: Hid)
    requires WholeInv(s) && Routed(s, h, p, d) && Steady(s, p, d) && Exclusive(s, a)
    ensures WholeInv(Step(s, a)) && Routed(Step(s, a), h, p, d)
    ensures Step(s, a).inputs[h].body == s.inputs[h].body
  {
    StepKeepsWhole(s, a);
    StepKeepsRoute(s, a, h, p, d);
    StepKeepsBody(s, a, h);
  }

  /** What handler `i` was sent is `es`: it has decoded a prefix of that, or all of it. */
  lemma {:induction false} ConsumedPrefix(i: Input, es: seq<Envelope>)
    requires InputInv(i) && i.body == WireAll(es) && Sendable(es)
    ensures i.consumed <= es && (i.rest == [] ==> i.consumed == es)
  {
    ParseAllWire(i.consumed, i.rest);
    ParseAllWire(es, []);
    assert WireAll(es) + [] == WireAll(es) && es + ParseAll([]) == es;
    assert i.consumed + [] == i.consumed;
  }
}

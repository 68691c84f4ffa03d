/** `writeEnvelope` of internal/h2proxy/proxy.go under concurrency: any number of callers share the
    CONNECT stream, each taking wrMu, writing header and payload in two separate writes and
    releasing it. The stream breaks when `room` bytes have been taken. */
module SharedStreams {
  import opened Basics
  import opened Env = Envelopes

  type Tid = nat

  datatype Caller =
    | Waiting(env: Envelope)          // about to take the lock
    | Locked(env: Envelope)           // header write comes next
    | HalfWritten(env: Envelope)      // payload write comes next
    | Releasing                       // both writes done, or one failed

  datatype State = State(
    lock: Option<Tid>, callers: map<Tid, Caller>, nextTid: Tid,
    bytes: Bytes, room: nat,
    order: seq<Envelope>,             // the envelopes in the order in which their callers got the lock
    turns: seq<Tid>,                  // those callers
    done: seq<Envelope>)              // those whose writes have both succeeded, in order of success

  function Init(room: nat): State { State(None, map[], 0, [], room, [], [], []) }

  datatype Action = Call(env: Envelope) | Go(t: Tid)

  function Goto(s: State, t: Tid, k: Caller): State { s.(callers := s.callers[t := k]) }

  /** One write on the stream: as much as there is room for. */
  function Put(s: State, p: Bytes): State
  {
    s.(bytes := s.bytes + p[..Min(|p|, s.room)], room := s.room - Min(|p|, s.room))
  }

  function Advance(s: State, t: Tid, k: Caller): State
  {
    match k
    case Waiting(e) => if s.lock.Some? then s else Goto(s.(lock := Some(t), order := s.order + [e], turns := s.turns + [t]), t, Locked(e))
    case Locked(e) =>
      var s' := Put(s, Header(e));
      if s.room < HEADER_SIZE then Goto(s', t, Releasing)
      else if e.payload == [] then Goto(s'.(done := s.done + [e]), t, Releasing)
      else Goto(s', t, HalfWritten(e))
    case HalfWritten(e) =>
      var s' := Put(s, e.payload);
      Goto(if s.room < |e.payload| then s' else s'.(done := s.done + [e]), t, Releasing)
    case Releasing => s.(lock := None, callers := s.callers - {t})
  }

  function Step(s: State, a: Action): State
  {
    match a
    case Call(e) => s.(callers := s.callers[s.nextTid := Waiting(e)], nextTid := s.nextTid + 1)
    case Go(t) => if t in s.callers then Advance(s, t, s.callers[t]) else s
  }

  function Run(room: nat, actions: seq<Action>): State
  {
    if actions == [] then Init(room) else Step(Run(room, actions[..|actions| - 1]), actions[|actions| - 1])
  }

  // --------------------------------------------------------------- exclusion

  /** Only the holder of the lock is past taking it. */
  ghost predicate LockInv(s: State)
  {
    && (forall t :: t in s.callers ==> t < s.nextTid)
    && (forall t :: t in s.callers && !s.callers[t].Waiting? ==> s.lock == Some(t))
    && (s.lock.Some? ==> s.lock.value in s.callers && !s.callers[s.lock.value].Waiting?)
  }

  lemma StepKeepsLock(s: State, a: Action)
    requires LockInv(s)
    ensures LockInv(Step(s, a))
  {
  }

  // ------------------------------------------------------------------ stream

  /** Where the holder of the lock is; nobody holding it counts as done. */
  function Holder(s: State): Caller
  {
    if s.lock.Some? && s.lock.value in s.callers then s.callers[s.lock.value] else Releasing
  }

  /** The stream is what the calls in lock order, each with both its writes, have put there; the
      call that holds the lock has written nothing yet, or its header, or all it will. */
  ghost predicate StreamInv(s: State, room: nat)
  {
    match Holder(s)
    case Locked(e) =>
      IsLast(s.order, e) && WriteCalls(Front(s.order), room) == (s.bytes, s.done, s.room)
    case HalfWritten(e) =>
      && IsLast(s.order, e) && e.payload != []
      && |s.bytes| >= HEADER_SIZE && Before(s.bytes) + Header(e) == s.bytes
      && WriteCalls(Front(s.order), room) == (Before(s.bytes), s.done, s.room + HEADER_SIZE)
    case _ => WriteCalls(s.order, room) == (s.bytes, s.done, s.room)
  }

  ghost predicate IsLast(es: seq<Envelope>, e: Envelope) { es != [] && es == Front(es) + [e] }

  function Front(es: seq<Envelope>): seq<Envelope> { if es == [] then [] else es[..|es| - 1] }

  /** The stream without the header it ends with. */
  function Before(bytes: Bytes): Bytes
    requires |bytes| >= HEADER_SIZE
  {
    bytes[..|bytes| - HEADER_SIZE]
  }

  lemma {:induction false} OneMoreCall(init: seq<Envelope>, e: Envelope, room: nat)
    ensures var (bytes, done, left) := WriteCalls(init, room);
            var n := Min(|Wire(e)|, left);
            WriteCalls(init + [e], room) == (bytes + Wire(e)[..n], if n == |Wire(e)| then done + [e] else done, left - n)
  {
    assert (init + [e])[..|init|] == init;
  }

  // What one more call adds, write by write.
  lemma {:induction false} HeaderFails(init: seq<Envelope>, e: Envelope, room: nat, w: (Bytes, seq<Envelope>, nat))
    requires WriteCalls(init, room) == w && w.2 < HEADER_SIZE
    ensures WriteCalls(init + [e], room) == (w.0 + Header(e)[..w.2], w.1, 0)
  {
    OneMoreCall(init, e, room);
    assert Header(e)[..w.2] == Wire(e)[..w.2];
  }

  lemma {:induction false} BothWrites(init: seq<Envelope>, e: Envelope, room: nat, w: (Bytes, seq<Envelope>, nat))
    requires WriteCalls(init, room) == w && w.2 >= HEADER_SIZE
    ensures var n := Min(|e.payload|, w.2 - HEADER_SIZE);
            WriteCalls(init + [e], room) ==
              (w.0 + Header(e) + e.payload[..n], if n == |e.payload| then w.1 + [e] else w.1, w.2 - HEADER_SIZE - n)
  {
    OneMoreCall(init, e, room);
    HeaderThenPart(w.0, e, Min(|e.payload|, w.2 - HEADER_SIZE));
  }

  lemma HeaderThenPart(before: Bytes, e: Envelope, n: nat)
    requires n <= |e.payload|
    ensures before + Header(e) + e.payload[..n] == before + Wire(e)[..HEADER_SIZE + n]
  {
    assert Wire(e)[..HEADER_SIZE + n] == Header(e) + e.payload[..n];
  }

  // What the two writes do to the state, apart from the stream's meaning.
  lemma HeaderEffect(s: State, t: Tid, e: Envelope)
    requires s.lock == Some(t) && t in s.callers && s.callers[t] == Locked(e)
    ensures var s' := Advance(s, t, Locked(e));
            && s'.order == s.order
            && (s.room < HEADER_SIZE ==>
                  Holder(s') == Releasing && (s'.bytes, s'.done, s'.room) == (s.bytes + Header(e)[..s.room], s.done, 0))
            && (s.room >= HEADER_SIZE ==>
                  && s'.bytes == s.bytes + Header(e) && s'.room == s.room - HEADER_SIZE
                  && (e.payload == [] ==> Holder(s') == Releasing && s'.done == s.done + [e])
                  && (e.payload != [] ==> Holder(s') == HalfWritten(e) && s'.done == s.done))
  {
    assert Header(e)[..HEADER_SIZE] == Header(e);
  }

  lemma PayloadEffect(s: State, t: Tid, e: Envelope)
    requires s.lock == Some(t) && t in s.callers && s.callers[t] == HalfWritten(e)
    ensures var s' := Advance(s, t, HalfWritten(e));
            var n := Min(|e.payload|, s.room);
            && s'.order == s.order && Holder(s') == Releasing
            && s'.bytes == s.bytes + e.payload[..n] && s'.room == s.room - n
            && s'.done == if n == |e.payload| then s.done + [e] else s.done
  {
  }

  // The stream's meaning after the header ...
  lemma {:induction false} AfterHeader(init: seq<Envelope>, e: Envelope, room: nat, s: State, s': State)
    requires s.order == s'.order == init + [e] && WriteCalls(init, room) == (s.bytes, s.done, s.room)
    requires Holder(s') == Releasing
    requires if s.room < HEADER_SIZE
             then (s'.bytes, s'.done, s'.room) == (s.bytes + Header(e)[..s.room], s.done, 0)
             else e.payload == [] && (s'.bytes, s'.done, s'.room) == (s.bytes + Header(e), s.done + [e], s.room - HEADER_SIZE)
    ensures StreamInv(s', room)
  {
    if s.room < HEADER_SIZE {
      HeaderFails(init, e, room, (s.bytes, s.done, s.room));
    } else {
      BothWrites(init, e, room, (s.bytes, s.done, s.room));
      assert s.bytes + Header(e) + e.payload[..0] == s.bytes + Header(e);
    }
  }

  // The header goes out: it fails, it is all there is, or the payload is still to come.
  lemma HeaderStep(s: State, t: Tid, e: Envelope, room: nat)
    requires LockInv(s) && StreamInv(s, room) && t in s.callers && s.callers[t] == Locked(e)
    ensures StreamInv(Advance(s, t, Locked(e)), room)
  {
    var init := Front(s.order);
    HeaderEffect(s, t, e);
    var s' := Advance(s, t, Locked(e));
    if s.room >= HEADER_SIZE && e.payload != [] {
      BetweenWrites(init, e, room, s, s');
    } else {
      AfterHeader(init, e, room, s, s');
    }
  }

  lemma BetweenWrites(init: seq<Envelope>, e: Envelope, room: nat, s: State, s': State)
    requires s.order == s'.order == init + [e] && WriteCalls(init, room) == (s.bytes, s.done, s.room)
    requires Holder(s') == HalfWritten(e) && e.payload != [] && s.room >= HEADER_SIZE
    requires (s'.bytes, s'.done, s'.room) == (s.bytes + Header(e), s.done, s.room - HEADER_SIZE)
    ensures StreamInv(s', room)
  {
    assert Front(s'.order) == init && Before(s'.bytes) == s.bytes;
  }

  // ... and after the payload.
  lemma PayloadStep(s: State, t: Tid, e: Envelope, room: nat)
    requires LockInv(s) && StreamInv(s, room) && t in s.callers && s.callers[t] == HalfWritten(e)
    ensures StreamInv(Advance(s, t, HalfWritten(e)), room)
  {
    PayloadEffect(s, t, e);
    AfterPayload(Front(s.order), e, room, Before(s.bytes), s, Advance(s, t, HalfWritten(e)));
  }

  lemma {:induction false} AfterPayload(init: seq<Envelope>, e: Envelope, room: nat, before: Bytes, s: State, s': State)
    requires s.order == s'.order == init + [e] && s.bytes == before + Header(e) && Holder(s') == Releasing
    requires WriteCalls(init, room) == (before, s.done, s.room + HEADER_SIZE)
    requires var n := Min(|e.payload|, s.room);
             (s'.bytes, s'.done, s'.room) == (s.bytes + e.payload[..n], if n == |e.payload| then s.done + [e] else s.done, s.room - n)
    ensures StreamInv(s', room)
  {
    BothWrites(init, e, room, (before, s.done, s.room + HEADER_SIZE));
  }

  lemma LockStep(s: State, t: Tid, e: Envelope, room: nat)
    requires LockInv(s) && StreamInv(s, room) && t in s.callers && s.callers[t] == Waiting(e)
    ensures StreamInv(Advance(s, t, Waiting(e)), room)
  {
    var s' := Advance(s, t, Waiting(e));
    if s.lock == None {
      assert Front(s'.order) == s.order;
    }
  }

  lemma ReleaseStep(s: State, t: Tid, room: nat)
    requires LockInv(s) && StreamInv(s, room) && t in s.callers && s.callers[t] == Releasing
    ensures StreamInv(Advance(s, t, Releasing), room)
  {
  }

  // A new caller does not touch the holder.
  lemma CallStep(s: State, e: Envelope, room: nat)
    requires LockInv(s) && StreamInv(s, room)
    ensures StreamInv(Step(s, Call(e)), room)
  {
    assert Holder(Step(s, Call(e))) == Holder(s);
  }

  lemma StepKeepsStream(s: State, a: Action, room: nat)
    requires LockInv(s) && StreamInv(s, room)
    ensures StreamInv(Step(s, a), room)
  {
    match a
    case Call(e) => CallStep(s, e, room);
    case Go(t) =>
      if t in s.callers {
        match s.callers[t]
        case Waiting(e) => LockStep(s, t, e, room);
        case Locked(e) => HeaderStep(s, t, e, room);
        case HalfWritten(e) => PayloadStep(s, t, e, room);
        case Releasing => ReleaseStep(s, t, room);
      }
  }

  lemma {:induction false} RunKeepsStream(room: nat, actions: seq<Action>)
    ensures LockInv(Run(room, actions)) && StreamInv(Run(room, actions), room)
    decreases |actions|
  {
    if actions == [] {
    } else {
      var init, a := actions[..|actions| - 1], actions[|actions| - 1];
      RunKeepsStream(room, init);
      StepKeepsLock(Run(room, init), a);
      StepKeepsStream(Run(room, init), a, room);
    }
  }

  // -------------------------------------------------------- what a reader gets

  /** Every call is for an envelope the format can carry. */
  ghost predicate SendableCalls(actions: seq<Action>)
  {
    forall a :: a in actions && a.Call? ==> |a.env.payload| < POW_2_32
  }

  ghost predicate SmallInv(s: State)
  {
    && Sendable(s.order)
    && (forall t :: t in s.callers && !s.callers[t].Releasing? ==> |s.callers[t].env.payload| < POW_2_32)
  }

  lemma StepKeepsSmall(s: State, a: Action)
    requires SmallInv(s) && (a.Call? ==> |a.env.payload| < POW_2_32)
    ensures SmallInv(Step(s, a))
  {
  }

  lemma {:induction false} RunKeepsSmall(room: nat, actions: seq<Action>)
    requires SendableCalls(actions)
    ensures SmallInv(Run(room, actions))
    decreases |actions|
  {
    if actions == [] {
    } else {
      var init := actions[..|actions| - 1];
      assert forall a :: a in init ==> a in actions;
      RunKeepsSmall(room, init);
      StepKeepsSmall(Run(room, init), actions[|actions| - 1]);
    }
  }

  // A header alone, after whole envelopes, adds nothing.
  lemma {:induction false} HalfDecodes(init: seq<Envelope>, before: Bytes, done: seq<Envelope>, left: nat, e: Envelope, room: nat)
    requires Sendable(init) && 0 < |e.payload| < POW_2_32 && left > 0
    requires WriteCalls(init, room) == (before, done, left)
    ensures ParseAll(before + Header(e)) == done
  {
    var partial := WriteCallsShape(init, room);
    assert partial == [] && before + [] == before;
    assert WireAll(done) + [] == WireAll(done);
    ParseAllWire(done, Header(e));
    ParseHeader(e, []);
    assert Header(e) + [] == Header(e);
    assert ParseAll(Header(e)) == [] && done + [] == done;
  }

  /** The lock makes the stream whole: over every interleaving of any number of callers, wherever
      the stream breaks and at every moment, also between the two writes of a call, a reader decodes
      exactly the envelopes whose two writes have succeeded; and these are, in lock order, what the
      calls put there one after the other. */
  lemma {:induction false} LockSerialises(room: nat, actions: seq<Action>)
    requires SendableCalls(actions)
    ensures var s := Run(room, actions);
            && ParseAll(s.bytes) == s.done
            && (s.lock == None ==> (s.bytes, s.done, s.room) == WriteCalls(s.order, room))
            && (s.lock == None && |WireAll(s.order)| <= room ==> s.done == s.order)
  {
    RunKeepsStream(room, actions);
    RunKeepsSmall(room, actions);
    var s := Run(room, actions);
    match Holder(s) {
      case Locked(e) => LockedDecodes(s, e, room);
      case HalfWritten(e) => HalfWrittenDecodes(s, e, room);
      case _ => WritersSerialised(s.order, room);
    }
  }

  lemma {:induction false} LockedDecodes(s: State, e: Envelope, room: nat)
    requires LockInv(s) && StreamInv(s, room) && SmallInv(s) && Holder(s) == Locked(e)
    ensures ParseAll(s.bytes) == s.done
  {
    assert forall x :: x in Front(s.order) ==> x in s.order;
    WritersSerialised(Front(s.order), room);
  }

  lemma {:induction false} HalfWrittenDecodes(s: State, e: Envelope, room: nat)
    requires LockInv(s) && StreamInv(s, room) && SmallInv(s) && Holder(s) == HalfWritten(e)
    ensures ParseAll(s.bytes) == s.done
  {
    assert forall x :: x in Front(s.order) ==> x in s.order;
    HalfDecodes(Front(s.order), Before(s.bytes), s.done, s.room + HEADER_SIZE, e, room);
  }

  // ----------------------------------------------------------- everybody's turn

  /** The envelopes of the calls made, by caller: caller `t` is the one that made call number `t`. */
  function Called(actions: seq<Action>): seq<Envelope>
  {
    if actions == [] then []
    else
      var init, a := Called(actions[..|actions| - 1]), actions[|actions| - 1];
      if a.Call? then init + [a.env] else init
  }

  /** Whoever had a turn had one, for its own envelope; whoever had none is waiting. */
  ghost predicate TurnInv(s: State, calls: seq<Envelope>)
  {
    && s.nextTid == |calls| && |s.turns| == |s.order|
    && (forall i :: 0 <= i < |s.turns| ==> s.turns[i] < |calls| && s.order[i] == calls[s.turns[i]])
    && (forall i, j :: 0 <= i < j < |s.turns| ==> s.turns[i] != s.turns[j])
    && (forall t :: 0 <= t < |calls| ==> (t in s.turns || (t in s.callers && s.callers[t] == Waiting(calls[t]))))
    && (forall t :: t in s.callers && s.callers[t].Waiting? ==> t < |calls| && t !in s.turns && s.callers[t].env == calls[t])
  }

  lemma CallKeepsTurns(s: State, e: Envelope, calls: seq<Envelope>)
    requires LockInv(s) && TurnInv(s, calls)
    ensures TurnInv(Step(s, Call(e)), calls + [e])
  {
  }

  lemma LockKeepsTurns(s: State, t: Tid, e: Envelope, calls: seq<Envelope>)
    requires LockInv(s) && TurnInv(s, calls) && t in s.callers && s.callers[t] == Waiting(e)
    ensures TurnInv(Advance(s, t, Waiting(e)), calls)
  {
    var s' := Advance(s, t, Waiting(e));
    if s.lock == None {
      assert forall x :: x in s'.turns <==> x in s.turns || x == t;
    }
  }

  lemma WritingKeepsTurns(s: State, t: Tid, k: Caller, calls: seq<Envelope>)
    requires LockInv(s) && TurnInv(s, calls) && t in s.callers && s.callers[t] == k && !k.Waiting?
    ensures TurnInv(Advance(s, t, k), calls)
  {
  }

  lemma StepKeepsTurns(s: State, a: Action, calls: seq<Envelope>)
    requires LockInv(s) && TurnInv(s, calls)
    ensures TurnInv(Step(s, a), if a.Call? then calls + [a.env] else calls)
  {
    match a
    case Call(e) => CallKeepsTurns(s, e, calls);
    case Go(t) =>
      if t in s.callers {
        match s.callers[t]
        case Waiting(e) => LockKeepsTurns(s, t, e, calls);
        case k => WritingKeepsTurns(s, t, k, calls);
      }
  }

  lemma {:induction false} RunKeepsTurns(room: nat, actions: seq<Action>)
    ensures TurnInv(Run(room, actions), Called(actions))
    decreases |actions|
  {
    if actions == [] {
    } else {
      var init := actions[..|actions| - 1];
      RunKeepsTurns(room, init);
      RunKeepsStream(room, init);
      StepKeepsTurns(Run(room, init), actions[|actions| - 1], Called(init));
    }
  }

  // ----------------------------------------------------------------- progress

  /** `f` comes after `s` without further calls. */
  ghost predicate Leads(s: State, f: State) { exists ts: seq<Tid> :: f == Gone(s, ts) }

  /** The callers `ts` take a step each, one after the other. */
  function Gone(s: State, ts: seq<Tid>): State
  {
    if ts == [] then s else Step(Gone(s, ts[..|ts| - 1]), Go(ts[|ts| - 1]))
  }

  function Steps(ts: seq<Tid>): seq<Action>
  {
    if ts == [] then [] else Steps(ts[..|ts| - 1]) + [Go(ts[|ts| - 1])]
  }

  lemma {:induction false} GoneIsRun(room: nat, actions: seq<Action>, ts: seq<Tid>)
    ensures Run(room, actions + Steps(ts)) == Gone(Run(room, actions), ts) && Called(actions + Steps(ts)) == Called(actions)
    decreases |ts|
  {
    if ts == [] {
      assert actions + Steps(ts) == actions;
    } else {
      var init := ts[..|ts| - 1];
      GoneIsRun(room, actions, init);
      var all := actions + Steps(ts);
      assert all[..|all| - 1] == actions + Steps(init);
    }
  }

  lemma Then(s: State, m: State, t: Tid)
    requires Leads(s, m)
    ensures Leads(s, Step(m, Go(t)))
  {
    var a :| m == Gone(s, a);
    assert (a + [t])[..|a|] == a;
    assert Gone(s, a + [t]) == Step(m, Go(t));
  }

  function Stage(k: Caller): nat { match k case Waiting(_) => 3 case Locked(_) => 2 case HalfWritten(_) => 1 case Releasing => 0 }

  // Whoever has the lock, or finds it free, comes to its end.
  lemma {:induction false} CallerFinishes(s: State, m: State, t: Tid) returns (f: State)
    requires Leads(s, m) && LockInv(m) && t in m.callers && (m.lock == None || m.lock == Some(t))
    ensures Leads(s, f) && LockInv(f) && f.lock == None && f.callers.Keys == m.callers.Keys - {t}
    decreases Stage(m.callers[t])
  {
    f := Step(m, Go(t));
    Then(s, m, t);
    StepKeepsLock(m, Go(t));
    if !m.callers[t].Releasing? {
      assert f.callers.Keys == m.callers.Keys && f.lock == Some(t);
      f := CallerFinishes(s, f, t);
    }
  }

  // Everybody comes to an end, one after the other.
  lemma {:induction false} EverybodyFinishes(s: State, m: State) returns (f: State)
    requires Leads(s, m) && LockInv(m)
    ensures Leads(s, f) && f.callers == map[] && f.lock == None
    decreases |m.callers.Keys|
  {
    if m.callers == map[] {
      f := m;
    } else {
      var t: Tid :| t in m.callers.Keys && (m.lock.Some? ==> t == m.lock.value);
      f := CallerFinishes(s, m, t);
      assert |f.callers.Keys| < |m.callers.Keys|;
      f := EverybodyFinishes(s, f);
    }
  }

  /** No caller is left, and every call has had exactly one turn, for its own envelope. */
  ghost predicate AllServed(s: State, calls: seq<Envelope>)
  {
    && s.callers == map[] && s.lock == None && |s.turns| == |s.order|
    && (forall t :: 0 <= t < |calls| ==> t in s.turns)
    && (forall i, j :: 0 <= i < j < |s.turns| ==> s.turns[i] != s.turns[j])
    && (forall i :: 0 <= i < |s.turns| ==> s.turns[i] < |calls| && s.order[i] == calls[s.turns[i]])
  }

  lemma ServedWhenGone(s: State, calls: seq<Envelope>)
    requires TurnInv(s, calls) && s.callers == map[] && s.lock == None
    ensures AllServed(s, calls)
  {
  }

  /** Every run can be continued, without further calls, until no caller is left; then every call has had
      exactly one turn with the lock, with its own envelope, and if the stream had room for them all,
      a reader decodes all of them, in the order of their turns. */
  lemma {:induction false} AllCallsFinish(room: nat, actions: seq<Action>) returns (ts: seq<Tid>)
    requires SendableCalls(actions)
    ensures var s := Run(room, actions + Steps(ts));
            AllServed(s, Called(actions)) && (|WireAll(s.order)| <= room ==> ParseAll(s.bytes) == s.order)
  {
    var s := Run(room, actions);
    assert Gone(s, []) == s;
    RunKeepsStream(room, actions);
    var f := EverybodyFinishes(s, s);
    ts :| f == Gone(s, ts);
    GoneIsRun(room, actions, ts);
    RunKeepsTurns(room, actions + Steps(ts));
    ServedWhenGone(f, Called(actions));
    StepsAreSmall(actions, ts);
    LockSerialises(room, actions + Steps(ts));
  }

  lemma {:induction false} StepsAreSmall(actions: seq<Action>, ts: seq<Tid>)
    requires SendableCalls(actions)
    ensures SendableCalls(actions + Steps(ts))
    decreases |ts|
  {
    if ts == [] {
      assert actions + Steps(ts) == actions;
    } else {
      StepsAreSmall(actions, ts[..|ts| - 1]);
      var more := actions + Steps(ts[..|ts| - 1]);
      assert actions + Steps(ts) == more + [Go(ts[|ts| - 1])];
    }
  }
}

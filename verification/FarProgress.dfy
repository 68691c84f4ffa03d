/** That dispatch and the readers get on: from every state of the session machine the reader of a
    session can get everything that was accepted, to EOF if the session is closed, and every calm run
    can be continued until the stream is dispatched and everything has been read. */
module FarProgress {
  import opened Basics
  import opened NetConns
  import opened ReadProgress
  import opened Sessions
  import opened SessionDelivery
  import Env = Envelopes

  // ------------------------------------------------------------------- reads

  function Reads(c: Cid, sizes: seq<nat>): seq<Action>
  {
    if sizes == [] then [] else Reads(c, sizes[..|sizes| - 1]) + [ReadConn(c, sizes[|sizes| - 1], false)]
  }

  lemma {:induction false} ReadManySnoc(c: Conn, sizes: seq<nat>, n: nat)
    ensures ReadMany(c, sizes + [n]) == ReadFrom(ReadMany(c, sizes), n, false)
    decreases |sizes|
  {
    if sizes == [] {
      assert ReadMany(ReadFrom(c, n, false), []) == ReadFrom(c, n, false);
      assert (sizes + [n])[1..] == [];
    } else {
      ReadManySnoc(ReadFrom(c, sizes[0], false), sizes[1..], n);
      assert (sizes + [n])[1..] == sizes[1..] + [n];
    }
  }

  // Reads of entry `c` change that entry alone, and are calm.
  lemma {:induction false} ReadsRun(s: State, c: Cid, sizes: seq<nat>, sid: Sid)
    requires c < |s.table.conns|
    ensures var f := Run(s, Reads(c, sizes));
            && f == s.(table := s.table.(conns := s.table.conns[c := ReadMany(s.table.conns[c], sizes)]))
            && CalmRun(s, Reads(c, sizes), sid)
    decreases |sizes|
  {
    if sizes == [] {
      assert s.table.conns[c := s.table.conns[c]] == s.table.conns;
    } else {
      var init, n := sizes[..|sizes| - 1], sizes[|sizes| - 1];
      ReadsRun(s, c, init, sid);
      assert sizes == init + [n];
      ReadManySnoc(s.table.conns[c], init, n);
      RunSnoc(s, Reads(c, init), ReadConn(c, n, false));
      assert Reads(c, sizes)[..|Reads(c, sizes)| - 1] == Reads(c, init);
    }
  }

  /** The reader of any session, mapped or not, in any state: enough reads into non-empty buffers return
      every accepted byte, and then EOF if the session is closed. */
  lemma {:induction false} ReaderCatchesUp(s: State, c: Cid, sizes: seq<nat>)
    requires TableInv(s.table) && c < |s.table.conns| && AllPositive(sizes) && |sizes| > Backlog(s.table.conns[c].live)
    ensures var f := Run(s, Reads(c, sizes));
            && c < |f.table.conns|
            && f.table.conns[c].returned == Flatten(s.table.conns[c].accepted)
            && (s.table.conns[c].live.closed ==> f.table.conns[c].eof)
  {
    assert ConnInv(s.table.conns[c]);
    ReadsRun(s, c, sizes, 0);
    ReadsDrain(s.table.conns[c], sizes);
  }

  /** Close of a mapped session: its reader still gets every accepted byte, and then EOF. */
  lemma {:induction false} CloseThenEof(s: State, sid: Sid, sizes: seq<nat>)
    requires TableInv(s.table) && sid in s.table.sessions && AllPositive(sizes)
    requires |sizes| > Backlog(s.table.conns[s.table.sessions[sid]].live)
    ensures var c := s.table.sessions[sid];
            var f := Run(Step(s, CloseSession(sid)), Reads(c, sizes));
            && c < |f.table.conns| && f.table.conns[c].eof
            && f.table.conns[c].returned == Flatten(s.table.conns[c].accepted)
  {
    CloseCloses(s, sid);
    StepKeepsTable(s, CloseSession(sid));
    ReaderCatchesUp(Step(s, CloseSession(sid)), s.table.sessions[sid], sizes);
  }

  // -------------------------------------------------------------- calm leads

  /** A calm continuation of `s` ends in `f`. */
  ghost predicate CalmLeads(s: State, f: State, sid: Sid)
  {
    exists actions :: CalmRun(s, actions, sid) && f == Run(s, actions)
  }

  lemma {:induction false} RunConcat(s: State, a: seq<Action>, b: seq<Action>, sid: Sid)
    requires CalmRun(s, a, sid) && CalmRun(Run(s, a), b, sid)
    ensures Run(s, a + b) == Run(Run(s, a), b) && CalmRun(s, a + b, sid)
    decreases |b|
  {
    if b == [] {
      assert a + b == a;
    } else {
      var init, x := b[..|b| - 1], b[|b| - 1];
      assert b == init + [x];
      CalmSnoc(Run(s, a), init, x, sid);
      RunConcat(s, a, init, sid);
      CalmSnoc(s, a + init, x, sid);
      Assoc(a, init, [x]);
    }
  }

  lemma {:induction false} CalmSnoc(s: State, actions: seq<Action>, a: Action, sid: Sid)
    ensures Run(s, actions + [a]) == Step(Run(s, actions), a)
    ensures CalmRun(s, actions + [a], sid) <==> CalmRun(s, actions, sid) && Calm(Run(s, actions), a, sid)
  {
    assert (actions + [a])[..|actions|] == actions;
  }

  lemma CalmThen(s: State, m: State, f: State, sid: Sid)
    requires CalmLeads(s, m, sid) && CalmLeads(m, f, sid)
    ensures CalmLeads(s, f, sid)
  {
    var a :| CalmRun(s, a, sid) && m == Run(s, a);
    var b :| CalmRun(m, b, sid) && f == Run(m, b);
    RunConcat(s, a, b, sid);
  }

  lemma {:induction false} CalmOne(s: State, a: Action, sid: Sid)
    requires Calm(s, a, sid)
    ensures CalmLeads(s, Step(s, a), sid)
  {
    RunSnoc(s, [], a);
    assert [] + [a] == [a] && [a][..0] == [];
    assert CalmRun(s, [], sid) && Run(s, []) == s;
    assert CalmRun(s, [a], sid) && Run(s, [a]) == Step(s, a);
  }

  // The invariant along calm continuations.
  lemma CalmFar(s: State, f: State, t: Tid, sid: Sid, wire0: Bytes)
    requires FarInv(s, t, sid, wire0) && CalmLeads(s, f, sid)
    ensures FarInv(f, t, sid, wire0)
  {
    var a :| CalmRun(s, a, sid) && f == Run(s, a);
    FarRun(s, a, t, sid, wire0);
  }

  /** The session's channel and leftovers are empty. */
  predicate ReadUp(b: Table, sid: Sid) { SidConn(b, sid).live.queue == [] && SidConn(b, sid).live.readBuf == [] }

  function Ones(n: nat): (sizes: seq<nat>)
    ensures |sizes| == n && forall x :: x in sizes ==> x == 1
  {
    if n == 0 then [] else [1] + Ones(n - 1)
  }

  // The session's reader catches up; nothing else moves.
  lemma {:induction false} CatchUp(s: State, sid: Sid) returns (f: State)
    requires TableInv(s.table)
    ensures CalmLeads(s, f, sid) && ReadUp(f.table, sid)
    ensures f.tasks == s.tasks && f.table.sessions == s.table.sessions && |f.table.conns| == |s.table.conns|
  {
    if sid in s.table.sessions {
      var c := s.table.sessions[sid];
      assert ConnInv(s.table.conns[c]);
      var sizes := Ones(Backlog(s.table.conns[c].live));
      ReadsRun(s, c, sizes, sid);
      ReadsDrain(s.table.conns[c], sizes);
      f := Run(s, Reads(c, sizes));
    } else {
      assert CalmRun(s, [], sid) && Run(s, []) == s;
      f := s;
    }
  }

  // --------------------------------------------------------------- the loop

  // The envelope in hand is dispatched and the loop is back at its top.
  lemma {:induction false} DispatchHeld(s: State, t: Tid, sid: Sid, wire0: Bytes) returns (f: State)
    requires FarInv(s, t, sid, wire0)
    ensures CalmLeads(s, f, sid) && t in f.tasks && f.tasks[t] == Loop(s.tasks[t].done, s.tasks[t].wire)
    decreases Stage(s.tasks[t])
  {
    var k := s.tasks[t];
    if k.Loop? {
      assert CalmRun(s, [], sid) && Run(s, []) == s;
      f := s;
    } else {
      var m := CatchUp(s, sid);
      CalmFar(s, m, t, sid, wire0);
      OneMove(m, t, sid);
      var m' := Step(m, Advance(t, true));
      CalmOne(m, Advance(t, true), sid);
      CalmThen(s, m, m', sid);
      CalmFar(s, m', t, sid, wire0);
      f := DispatchHeld(m', t, sid, wire0);
      CalmThen(s, m', f, sid);
    }
  }

  /** How far the loop is from its top. */
  function Stage(k: Task): nat
  {
    match k
    case Loop(_, _) => 0
    case Lookup(_, _, _) => 2
    case _ => 1
  }

  lemma OneMove(s: State, t: Tid, sid: Sid)
    requires TableInv(s.table) && t in s.tasks && Delivered(s.table, s.tasks[t], sid) && !s.tasks[t].Loop? && ReadUp(s.table, sid)
    ensures Calm(s, Advance(t, true), sid)
    ensures var s' := Step(s, Advance(t, true));
            && t in s'.tasks && Stage(s'.tasks[t]) < Stage(s.tasks[t])
            && s'.tasks[t].done == s.tasks[t].done && s'.tasks[t].wire == s.tasks[t].wire
  {
  }

  lemma {:induction false} NothingLeft(done: seq<Env.Envelope>, wire: Bytes, es: seq<Env.Envelope>)
    requires Env.WireAll(es) == Env.WireAll(done) + wire && Env.Sendable(done) && Env.Sendable(es)
    requires Env.Parse(wire).None?
    ensures wire == []
  {
    Env.ParseAllWire(done, wire);
    Env.ParseAllWire(es, []);
    assert Env.WireAll(es) + [] == Env.WireAll(es);
    assert Env.ParseAll(wire) == [] && Env.ParseAll([]) == [];
    assert done + [] == done && es + [] == es;
  }

  /** Every state that a calm run has reached, on a stream of whole envelopes, has a calm continuation
      after which the stream is dispatched and the session's reader has everything. */
  lemma {:induction false} FarDrains(s: State, t: Tid, sid: Sid, wire0: Bytes, es: seq<Env.Envelope>) returns (f: State)
    requires FarInv(s, t, sid, wire0) && wire0 == Env.WireAll(es) && Env.Sendable(es)
    ensures CalmLeads(s, f, sid) && ReadUp(f.table, sid)
    ensures t in f.tasks && f.tasks[t].Loop? && f.tasks[t].wire == []
    decreases |s.tasks[t].wire|
  {
    var m := DispatchHeld(s, t, sid, wire0);
    CalmFar(s, m, t, sid, wire0);
    var done, wire := m.tasks[t].done, m.tasks[t].wire;
    if Env.Parse(wire).None? {
      NothingLeft(done, wire, es);
      f := CatchUp(m, sid);
      CalmThen(s, m, f, sid);
    } else {
      var m' := Step(m, Advance(t, true));
      CalmOne(m, Advance(t, true), sid);
      CalmThen(s, m, m', sid);
      CalmFar(s, m', t, sid, wire0);
      f := FarDrains(m', t, sid, wire0, es);
      CalmThen(s, m', f, sid);
    }
  }
}

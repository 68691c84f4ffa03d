/** Whose payloads a session's reader gets. Dispatch looks at the session id alone, so the answer
    depends on what the peers of the relay put on the stream. */
module SessionOwner {
  import opened Basics
  import opened NetConns
  import opened Sessions
  import opened SessionDelivery
  import Env = Envelopes

  /** The sources of the DATA envelopes of session `sid`, in order. */
  function DataSources(es: seq<Env.Envelope>, sid: Sid): seq<Env.PeerId>
  {
    if es == [] then []
    else
      var e := es[|es| - 1];
      var init := DataSources(es[..|es| - 1], sid);
      if ForSession(e, sid) then init + [e.src] else init
  }

  lemma {:induction false} DataSourcesSnoc(es: seq<Env.Envelope>, e: Env.Envelope, sid: Sid)
    ensures DataSources(es + [e], sid) ==
            if ForSession(e, sid) then DataSources(es, sid) + [e.src] else DataSources(es, sid)
  {
    assert (es + [e])[..|es|] == es;
  }

  /** All data for session `sid` is from peer `p`. */
  ghost predicate AllFrom(es: seq<Env.Envelope>, sid: Sid, p: Env.PeerId)
  {
    forall e :: e in es && ForSession(e, sid) ==> e.src == p
  }

  lemma {:induction false} SourcesOfAll(es: seq<Env.Envelope>, sid: Sid, p: Env.PeerId)
    ensures AllFrom(es, sid, p) <==> AllAre(DataSources(es, sid), p)
    decreases |es|
  {
    if es == [] {
    } else {
      var init, e := es[..|es| - 1], es[|es| - 1];
      SourcesOfAll(init, sid, p);
      assert es == init + [e];
      assert AllFrom(es, sid, p) <==> AllFrom(init, sid, p) && (ForSession(e, sid) ==> e.src == p);
      AllAreSnoc(DataSources(init, sid), e.src, p);
    }
  }

  // ---------------------------------------------------------------- invariant

  function HeldSource(b: Table, k: Task, sid: Sid): seq<Env.PeerId>
  {
    match k
    case Lookup(e, _, _) => if e.session == sid then [e.src] else []
    case SendOutside(c, e, _, _) => if sid in b.sessions && b.sessions[sid] == c then [e.src] else []
    case _ => []
  }

  /** The sources of what the session accepted are those of the envelopes decoded for it. */
  ghost predicate Sourced(b: Table, k: Task, sid: Sid)
  {
    !k.Register? && SidConn(b, sid).sources + HeldSource(b, k, sid) == DataSources(k.done, sid)
  }

  /** The session belongs to `opener` if it was opened for that peer before, and else to the source
      of the first envelope that reached it. */
  ghost predicate Owned(b: Table, sid: Sid, opener: Option<Env.PeerId>)
  {
    if opener.Some? then sid in b.sessions && SidConn(b, sid).peer == opener.value
    else
      && (sid in b.sessions <==> SidConn(b, sid).sources != [])
      && (sid in b.sessions ==> SidConn(b, sid).peer == SidConn(b, sid).sources[0])
  }

  ghost predicate OwnerInv(b: Table, k: Task, sid: Sid, opener: Option<Env.PeerId>)
  {
    Sourced(b, k, sid) && Owned(b, sid, opener)
  }

  // -------------------------------------------------------------------- steps

  // The session's entry keeps its peer and its sources, and stays mapped or unmapped.
  lemma Untouched(b: Table, b': Table, k: Task, sid: Sid, opener: Option<Env.PeerId>)
    requires OwnerInv(b, k, sid, opener)
    requires SidConn(b', sid).sources == SidConn(b, sid).sources && SidConn(b', sid).peer == SidConn(b, sid).peer
    requires (sid in b'.sessions <==> sid in b.sessions) && (sid in b.sessions ==> b'.sessions[sid] == b.sessions[sid])
    ensures OwnerInv(b', k, sid, opener)
  {
  }

  lemma RemoveOwned(b: Table, x: Sid, k: Task, sid: Sid, opener: Option<Env.PeerId>)
    requires TableInv(b) && x != sid && OwnerInv(b, k, sid, opener)
    ensures OwnerInv(Remove(b, x), k, sid, opener)
  {
    assert SidConn(Remove(b, x), sid) == SidConn(b, sid);
    Untouched(b, Remove(b, x), k, sid, opener);
  }

  lemma AddOwned(b: Table, x: Sid, c: Conn, k: Task, sid: Sid, opener: Option<Env.PeerId>)
    requires TableInv(b) && x != sid && OwnerInv(b, k, sid, opener)
    ensures OwnerInv(Add(b, x, c), k, sid, opener)
  {
    assert SidConn(Add(b, x, c), sid) == SidConn(b, sid);
    Untouched(b, Add(b, x, c), k, sid, opener);
  }

  lemma ReadOwned(b: Table, c: Cid, n: nat, expired: bool, k: Task, sid: Sid, opener: Option<Env.PeerId>)
    requires TableInv(b) && OwnerInv(b, k, sid, opener)
    ensures OwnerInv(ReadIn(b, c, n, expired), k, sid, opener)
  {
    Untouched(b, ReadIn(b, c, n, expired), k, sid, opener);
  }

  lemma SendOwned(b: Table, sid: Sid, c: Cid, e: Env.Envelope, done: seq<Env.Envelope>, wire: Bytes, opener: Option<Env.PeerId>)
    requires TableInv(b) && OwnerInv(b, SendOutside(c, e, done, wire), sid, opener) && c < |b.conns|
    requires sid in b.sessions && b.sessions[sid] == c ==> HasRoom(b.conns[c].live)
    ensures OwnerInv(SendIn(b, c, e), Loop(done, wire), sid, opener)
  {
    var b' := SendIn(b, c, e);
    if sid in b.sessions && b.sessions[sid] == c {
      assert SidConn(b', sid) == SendTo(SidConn(b, sid), e.src, e.payload);
      assert SidConn(b', sid).sources + [] == SidConn(b', sid).sources;
    } else {
      assert SidConn(b', sid) == SidConn(b, sid);
    }
  }

  lemma LookupOwned(b: Table, sid: Sid, e: Env.Envelope, done: seq<Env.Envelope>, wire: Bytes, opener: Option<Env.PeerId>)
    requires TableInv(b) && OwnerInv(b, Lookup(e, done, wire), sid, opener) && e.session !in b.sessions
    ensures OwnerInv(Add(b, e.session, OpenedBy(e)), Announce(e.session, done, wire), sid, opener)
  {
    var b' := Add(b, e.session, OpenedBy(e));
    FirstSend(e);
    if e.session == sid {
      assert SidConn(b, sid) == NewConn(NOBODY) && SidConn(b', sid) == OpenedBy(e);
      assert [] + [e.src] == [e.src] == [e.src] + [];
    } else {
      assert SidConn(b', sid) == SidConn(b, sid);
    }
  }

  lemma DecodeOwned(b: Table, sid: Sid, done: seq<Env.Envelope>, wire: Bytes, opener: Option<Env.PeerId>)
    requires OwnerInv(b, Loop(done, wire), sid, opener) && Decoded(done, wire).Some?
    ensures OwnerInv(b, Decoded(done, wire).value, sid, opener)
  {
    var (e, n) := Env.Parse(wire).value;
    DataSourcesSnoc(done, e, sid);
    var sources := SidConn(b, sid).sources;
    assert sources + [] == sources;
  }

  lemma LoopOwned(s: State, t: Tid, room: bool, sid: Sid, wire0: Bytes, opener: Option<Env.PeerId>)
    requires FarInv(s, t, sid, wire0) && Calm(s, Advance(t, room), sid) && OwnerInv(s.table, s.tasks[t], sid, opener)
    ensures var s' := AdvanceTask(s, t, s.tasks[t], room); t in s'.tasks && OwnerInv(s'.table, s'.tasks[t], sid, opener)
  {
    match s.tasks[t]
    case Loop(done, wire) => DecodeOwned(s.table, sid, done, wire, opener);
    case Lookup(e, done, wire) =>
      if e.session !in s.table.sessions { LookupOwned(s.table, sid, e, done, wire, opener); }
    case SendOutside(c, e, done, wire) => SendOwned(s.table, sid, c, e, done, wire, opener);
    case Announce(x, done, wire) =>
    case Evict(x, done, wire) => RemoveOwned(s.table, x, s.tasks[t], sid, opener);
  }

  lemma OwnerStep(s: State, a: Action, t: Tid, sid: Sid, wire0: Bytes, opener: Option<Env.PeerId>)
    requires FarInv(s, t, sid, wire0) && Calm(s, a, sid) && OwnerInv(s.table, s.tasks[t], sid, opener)
    ensures var s' := Step(s, a); t in s'.tasks && OwnerInv(s'.table, s'.tasks[t], sid, opener)
  {
    match a
    case CloseSession(x) => RemoveOwned(s.table, x, s.tasks[t], sid, opener);
    case NewSession(_) =>
    case ReadConn(c, n, expired) => ReadOwned(s.table, c, n, expired, s.tasks[t], sid, opener);
    case Advance(u, room) =>
      if u == t {
        LoopOwned(s, t, room, sid, wire0, opener);
      } else if u in s.tasks {
        AddOwned(s.table, s.tasks[u].sid, NewConn(s.tasks[u].peer), s.tasks[t], sid, opener);
      }
  }

  lemma {:induction false} OwnerRun(s: State, actions: seq<Action>, t: Tid, sid: Sid, wire0: Bytes, opener: Option<Env.PeerId>)
    requires FarInv(s, t, sid, wire0) && CalmRun(s, actions, sid) && OwnerInv(s.table, s.tasks[t], sid, opener)
    ensures var f := Run(s, actions); t in f.tasks && OwnerInv(f.table, f.tasks[t], sid, opener)
    decreases |actions|
  {
    if actions == [] {
    } else {
      var init := actions[..|actions| - 1];
      OwnerRun(s, init, t, sid, wire0, opener);
      FarRun(s, init, t, sid, wire0);
      OwnerStep(Run(s, init), actions[|actions| - 1], t, sid, wire0, opener);
    }
  }

  /** The peer the session belongs to: the one it was opened for, or the first to use its id. */
  function OwnerOf(opener: Option<Env.PeerId>, es: seq<Env.Envelope>, sid: Sid): Env.PeerId
  {
    if opener.Some? then opener.value
    else if DataSources(es, sid) != [] then DataSources(es, sid)[0] else NOBODY
  }

  /** The reader's side of dispatching by session id alone: once the stream is dispatched, over every
      calm interleaving, the session belongs to the peer it was opened for, or else to the first
      one on the stream to use its id, and every payload its reader gets is that peer's if and only
      if all data on the stream with that id is. */
  lemma {:induction false} ReaderGetsOwner(s: State, actions: seq<Action>, t: Tid, sid: Sid, wire0: Bytes, opener: Option<Env.PeerId>)
    requires FarInv(s, t, sid, wire0) && CalmRun(s, actions, sid) && OwnerInv(s.table, s.tasks[t], sid, opener)
    ensures var f := Run(s, actions);
            var c, es := SidConn(f.table, sid), Env.ParseAll(wire0);
            t in f.tasks && f.tasks[t].Loop? && f.tasks[t].wire == [] && sid in f.table.sessions ==>
              && c.peer == OwnerOf(opener, es, sid)
              && c.accepted == DataPayloads(es, sid)
              && (OwnOnly(c) <==> AllFrom(es, sid, OwnerOf(opener, es, sid)))
  {
    FarRun(s, actions, t, sid, wire0);
    OwnerRun(s, actions, t, sid, wire0, opener);
    var f := Run(s, actions);
    var k := f.tasks[t];
    if k.Loop? && k.wire == [] && sid in f.table.sessions {
      Dispatched(k.done, wire0);
      DrainedOwner(f.table, k, sid, opener);
    }
  }

  lemma DrainedOwner(b: Table, k: Task, sid: Sid, opener: Option<Env.PeerId>)
    requires Delivered(b, k, sid) && OwnerInv(b, k, sid, opener) && k.Loop? && sid in b.sessions
    ensures var c := SidConn(b, sid);
            && c.peer == OwnerOf(opener, k.done, sid)
            && c.accepted == DataPayloads(k.done, sid)
            && (OwnOnly(c) <==> AllFrom(k.done, sid, c.peer))
  {
    var c := SidConn(b, sid);
    assert c.sources + [] == c.sources && c.offered + [] == c.offered;
    SourcesOfAll(k.done, sid, c.peer);
  }

  lemma {:induction false} Dispatched(done: seq<Env.Envelope>, wire0: Bytes)
    requires wire0 == Env.WireAll(done) + [] && Env.Sendable(done)
    ensures Env.ParseAll(wire0) == done
  {
    Env.ParseAllWire(done, []);
    assert done + [] == done;
  }
}

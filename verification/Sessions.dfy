/** The session table of internal/h2proxy/proxy.go under concurrency: the read loop, dispatch
    with its lookup and its send as separate steps, NewSession, removal, and the readers. */
module Sessions {
  import opened Basics
  import opened NetConns
  import Env = Envelopes

  type Sid = uint32
  type Tid = nat
  /** A session entry and its channel, by order of creation. */
  type Cid = nat

  // ------------------------------------------------------------------ table

  /** `sessions` is the map guarded by sessMu; `conns` holds every entry ever created. */
  datatype Table = Table(sessions: map<Sid, Cid>, conns: seq<Conn>)

  /** A fresh entry stored under `sid`, in place of whatever was there. */
  function Add(b: Table, sid: Sid, c: Conn): Table
  {
    Table(b.sessions[sid := |b.conns|], b.conns + [c])
  }

  /** removeSession. */
  function Remove(b: Table, sid: Sid): Table
  {
    if sid in b.sessions && b.sessions[sid] < |b.conns| then
      var c := b.sessions[sid];
      Table(b.sessions - {sid}, b.conns[c := CloseConn(b.conns[c])])
    else b
  }

  /** closeAllSessions. */
  function RemoveAll(b: Table): Table
  {
    Table(map[], seq(|b.conns|, i requires 0 <= i < |b.conns| =>
      if i in b.sessions.Values then CloseConn(b.conns[i]) else b.conns[i]))
  }

  function SendIn(b: Table, c: Cid, e: Env.Envelope): Table
  {
    if c < |b.conns| then b.(conns := b.conns[c := SendTo(b.conns[c], e.src, e.payload)]) else b
  }

  /** The session a remote envelope opens: it belongs to its source and holds its payload. */
  function OpenedBy(e: Env.Envelope): Conn { SendTo(NewConn(e.src), e.src, e.payload) }

  function ReadIn(b: Table, c: Cid, n: nat, expired: bool): Table
  {
    if c < |b.conns| then b.(conns := b.conns[c := ReadFrom(b.conns[c], n, expired)]) else b
  }

  // ---------------------------------------------------------------- machine

  /** Where a goroutine is. The read loop carries the envelopes it has decoded (`done`) and the
      bytes it has not (`wire`). */
  datatype Task =
    | Loop(done: seq<Env.Envelope>, wire: Bytes)
    | Lookup(env: Env.Envelope, done: seq<Env.Envelope>, wire: Bytes)
    | SendOutside(conn: Cid, env: Env.Envelope, done: seq<Env.Envelope>, wire: Bytes)
    | Announce(sid: Sid, done: seq<Env.Envelope>, wire: Bytes)
    | Evict(sid: Sid, done: seq<Env.Envelope>, wire: Bytes)
    | Register(sid: Sid, peer: Env.PeerId)

  datatype State = State(table: Table, nextSid: Sid, tasks: map<Tid, Task>, nextTid: Tid)

  const INIT := State(Table(map[], []), 0, map[], 0)

  datatype Action =
    | Connect(wire: Bytes)             // a read loop starts on a CONNECT stream
    | Advance(t: Tid, room: bool)      // the next atomic step of goroutine t; `room`: acceptCh has room
    | NewSession(peer: Env.PeerId)     // the id of an outgoing session is allocated
    | CloseSession(sid: Sid)           // EnvelopeNetConn.Close
    | CloseAll                         // cleanup when the CONNECT stream ends
    | ReadConn(c: Cid, n: nat, expired: bool)

  function Goto(s: State, t: Tid, k: Task): State { s.(tasks := s.tasks[t := k]) }

  function Spawn(s: State, k: Task): State
  {
    s.(tasks := s.tasks[s.nextTid := k], nextTid := s.nextTid + 1)
  }

  /** readLoop: decode one envelope; control and unknown types do not reach the table. */
  function Decoded(done: seq<Env.Envelope>, wire: Bytes): Option<Task>
  {
    match Env.Parse(wire)
    case None => None
    case Some((e, n)) =>
      Some(if e.streamType == Env.STREAM_DATA then Lookup(e, done + [e], wire[n..])
           else Loop(done + [e], wire[n..]))
  }

  function AdvanceTask(s: State, t: Tid, k: Task, room: bool): State
  {
    match k
    case Loop(done, wire) =>
      (match Decoded(done, wire)
       case None => s.(tasks := s.tasks - {t})
       case Some(k') => Goto(s, t, k'))
    case Lookup(e, done, wire) =>
      if e.session in s.table.sessions then
        Goto(s, t, SendOutside(s.table.sessions[e.session], e, done, wire))
      else
        Goto(s.(table := Add(s.table, e.session, OpenedBy(e))),
             t, Announce(e.session, done, wire))
    case SendOutside(c, e, done, wire) => Goto(s.(table := SendIn(s.table, c, e)), t, Loop(done, wire))
    case Announce(sid, done, wire) => Goto(s, t, if room then Loop(done, wire) else Evict(sid, done, wire))
    case Evict(sid, done, wire) => Goto(s.(table := Remove(s.table, sid)), t, Loop(done, wire))
    case Register(sid, peer) => s.(table := Add(s.table, sid, NewConn(peer)), tasks := s.tasks - {t})
  }

  /** One atomic step; an action that is not possible leaves the state as it is. */
  function Step(s: State, a: Action): State
  {
    match a
    case Connect(wire) => Spawn(s, Loop([], wire))
    case Advance(t, room) => if t in s.tasks then AdvanceTask(s, t, s.tasks[t], room) else s
    case NewSession(peer) =>
      var sid := (s.nextSid + 1) % POW_2_32;
      Spawn(s.(nextSid := sid), Register(sid, peer))
    case CloseSession(sid) => s.(table := Remove(s.table, sid))
    case CloseAll => s.(table := RemoveAll(s.table))
    case ReadConn(c, n, expired) => s.(table := ReadIn(s.table, c, n, expired))
  }

  function Run(s: State, actions: seq<Action>): State
  {
    if actions == [] then s else Step(Run(s, actions[..|actions| - 1]), actions[|actions| - 1])
  }

  // ------------------------------------------------------------ table safety

  /** Every mapped session has an open channel of its own; no channel is closed twice, even
      without the sync.Once around the close; every channel refines a byte stream. */
  ghost predicate TableInv(b: Table)
  {
    && (forall sid :: sid in b.sessions ==> b.sessions[sid] < |b.conns| && !b.conns[b.sessions[sid]].live.closed)
    && (forall i, j :: i in b.sessions && j in b.sessions && b.sessions[i] == b.sessions[j] ==> i == j)
    && (forall c :: 0 <= c < |b.conns| ==> ConnInv(b.conns[c]))
  }

  ghost predicate ConnInv(c: Conn)
  {
    c.closes == (if c.live.closed then 1 else 0) && StreamInv(c)
  }

  lemma AddKeeps(b: Table, sid: Sid, c: Conn)
    requires TableInv(b) && ConnInv(c) && !c.live.closed
    ensures TableInv(Add(b, sid, c))
  {
  }

  lemma RemoveKeeps(b: Table, sid: Sid)
    requires TableInv(b)
    ensures TableInv(Remove(b, sid))
  {
  }

  /** Cleanup empties the table and closes every session that was mapped, and only those. */
  lemma RemoveAllKeeps(b: Table)
    requires TableInv(b)
    ensures TableInv(RemoveAll(b))
  {
  }

  // Every mapped channel is closed, every other one is left alone.
  lemma RemoveAllCloses(b: Table)
    requires TableInv(b)
    ensures var b' := RemoveAll(b);
            && b'.sessions == map[] && |b'.conns| == |b.conns|
            && (forall sid :: sid in b.sessions ==> b.sessions[sid] < |b'.conns| && b'.conns[b.sessions[sid]].live.closed)
            && (forall c :: 0 <= c < |b.conns| && c !in b.sessions.Values ==> b'.conns[c] == b.conns[c])
  {
    var b' := RemoveAll(b);
    forall sid | sid in b.sessions ensures b'.conns[b.sessions[sid]].live.closed {
      assert b.sessions[sid] in b.sessions.Values;
    }
  }

  lemma NewConnHolds(peer: Env.PeerId)
    ensures ConnInv(NewConn(peer))
  {
    assert [] + [] + [] == Flatten([]);
  }

  lemma FirstSend(e: Env.Envelope)
    ensures ConnInv(OpenedBy(e)) && !OpenedBy(e).live.closed
    ensures OpenedBy(e).accepted == OpenedBy(e).offered == [e.payload] && OpenedBy(e).sources == [e.src]
  {
    NewConnHolds(e.src);
    SendKeepsStream(NewConn(e.src), e.src, e.payload);
  }

  // One entry is replaced by another that is closed exactly if it was.
  lemma UpdateKeeps(b: Table, c: Cid, x: Conn)
    requires TableInv(b) && c < |b.conns| && ConnInv(x) && x.live.closed == b.conns[c].live.closed
    ensures TableInv(b.(conns := b.conns[c := x]))
  {
  }

  lemma SendInKeeps(b: Table, c: Cid, e: Env.Envelope)
    requires TableInv(b)
    ensures TableInv(SendIn(b, c, e))
  {
    if c < |b.conns| {
      SendKeepsStream(b.conns[c], e.src, e.payload);
      UpdateKeeps(b, c, SendTo(b.conns[c], e.src, e.payload));
    }
  }

  lemma ReadInKeeps(b: Table, c: Cid, n: nat, expired: bool)
    requires TableInv(b)
    ensures TableInv(ReadIn(b, c, n, expired))
  {
    if c < |b.conns| {
      ReadKeepsStream(b.conns[c], n, expired);
      UpdateKeeps(b, c, ReadFrom(b.conns[c], n, expired));
    }
  }

  lemma StepKeepsTable(s: State, a: Action)
    requires TableInv(s.table)
    ensures TableInv(Step(s, a).table)
  {
    match a
    case CloseSession(sid) => RemoveKeeps(s.table, sid);
    case CloseAll => RemoveAllKeeps(s.table);
    case ReadConn(c, n, expired) => ReadInKeeps(s.table, c, n, expired);
    case Advance(t, room) => if t in s.tasks { AdvanceKeepsTable(s, t, s.tasks[t], room); }
    case _ =>
  }

  lemma OpeningKeeps(b: Table, e: Env.Envelope)
    requires TableInv(b)
    ensures TableInv(Add(b, e.session, OpenedBy(e)))
  {
    FirstSend(e);
    AddKeeps(b, e.session, OpenedBy(e));
  }

  lemma RegisterKeeps(b: Table, sid: Sid, peer: Env.PeerId)
    requires TableInv(b)
    ensures TableInv(Add(b, sid, NewConn(peer)))
  {
    NewConnHolds(peer);
    AddKeeps(b, sid, NewConn(peer));
  }

  lemma AdvanceKeepsTable(s: State, t: Tid, k: Task, room: bool)
    requires TableInv(s.table)
    ensures TableInv(AdvanceTask(s, t, k, room).table)
  {
    match k
    case Lookup(e, _, _) => OpeningKeeps(s.table, e);
    case Register(sid, peer) => RegisterKeeps(s.table, sid, peer);
    case Evict(sid, _, _) => RemoveKeeps(s.table, sid);
    case SendOutside(c, e, _, _) => SendInKeeps(s.table, c, e);
    case _ =>
  }

  /** Session table safety over every interleaving. */
  lemma {:induction false} TableSafe(actions: seq<Action>)
    ensures TableInv(Run(INIT, actions).table)
    decreases |actions|
  {
    if actions == [] {
    } else {
      TableSafe(actions[..|actions| - 1]);
      StepKeepsTable(Run(INIT, actions[..|actions| - 1]), actions[|actions| - 1]);
    }
  }

  /** What can happen to an entry: it keeps its peer, what was accepted and returned only grows, and
      once it is closed it stays closed and accepts nothing more. */
  ghost predicate Evolves(c: Conn, c': Conn)
  {
    && c'.peer == c.peer
    && c.accepted <= c'.accepted && c.sources <= c'.sources && c.returned <= c'.returned
    && (c.live.closed ==> c'.live.closed && c'.accepted == c.accepted && c'.sources == c.sources)
  }

  lemma EntryStep(s: State, a: Action, c: Cid)
    requires c < |s.table.conns|
    ensures c < |Step(s, a).table.conns| && Evolves(s.table.conns[c], Step(s, a).table.conns[c])
  {
    match a
    case Advance(t, room) => if t in s.tasks { AdvanceEntry(s, t, s.tasks[t], room, c); }
    case ReadConn(x, n, expired) =>
    case _ =>
  }

  lemma AdvanceEntry(s: State, t: Tid, k: Task, room: bool, c: Cid)
    requires c < |s.table.conns|
    ensures c < |AdvanceTask(s, t, k, room).table.conns|
    ensures Evolves(s.table.conns[c], AdvanceTask(s, t, k, room).table.conns[c])
  {
  }

  /** Over every run from every state: a send that loses the race with a removal, or comes after it,
      has no effect, since a closed channel accepts nothing more and no entry changes its peer. */
  lemma {:induction false} ClosedIsFinal(s: State, actions: seq<Action>, c: Cid)
    requires c < |s.table.conns|
    ensures c < |Run(s, actions).table.conns| && Evolves(s.table.conns[c], Run(s, actions).table.conns[c])
    decreases |actions|
  {
    if actions == [] {
    } else {
      var init := actions[..|actions| - 1];
      ClosedIsFinal(s, init, c);
      EntryStep(Run(s, init), actions[|actions| - 1], c);
    }
  }

  // ------------------------------------------------------------ what ends

  /** The entry of `sid`, and nothing else, goes from the table, its channel closed, what it holds kept. */
  ghost predicate Closes(b: Table, sid: Sid, b': Table)
    requires sid in b.sessions && b.sessions[sid] < |b.conns|
  {
    var c := b.sessions[sid];
    && sid !in b'.sessions && (forall x :: x in b.sessions && x != sid ==> x in b'.sessions && b'.sessions[x] == b.sessions[x])
    && (forall x :: x in b'.sessions ==> x in b.sessions)
    && |b'.conns| == |b.conns|
    && b'.conns[c] == b.conns[c].(live := Live(b.conns[c].live.queue, true, b.conns[c].live.readBuf), closes := 1)
    && (forall i :: 0 <= i < |b.conns| && i != c ==> b'.conns[i] == b.conns[i])
  }

  /** Close of a mapped session, over every state the table can be in: the id is unmapped, its channel
      is closed exactly once with queue and leftovers kept, and nothing else changes; Close of an id
      that is not mapped changes nothing. */
  lemma CloseCloses(s: State, sid: Sid)
    requires TableInv(s.table)
    ensures var s' := Step(s, CloseSession(sid));
            && (s'.tasks, s'.nextSid, s'.nextTid) == (s.tasks, s.nextSid, s.nextTid)
            && if sid in s.table.sessions then Closes(s.table, sid, s'.table) else s'.table == s.table
  {
    if sid in s.table.sessions { assert ConnInv(s.table.conns[s.table.sessions[sid]]); }
  }

  /** An incoming session that meets a full acceptCh is unmapped and closed again by the next two steps
      of the read loop, with its payload in the queue; one that does not stays as it is. */
  lemma RefusedCloses(s: State, t: Tid, room: bool)
    requires TableInv(s.table) && t in s.tasks && s.tasks[t].Announce? && s.tasks[t].sid in s.table.sessions
    ensures var k, s1 := s.tasks[t], Step(s, Advance(t, room));
            var s2 := Step(s1, Advance(t, room));
            && s1.table == s.table
            && if room then s1.tasks == s.tasks[t := Loop(k.done, k.wire)]
               else s2.tasks == s.tasks[t := Loop(k.done, k.wire)] && Closes(s.table, k.sid, s2.table)
  {
    var sid := s.tasks[t].sid;
    CloseCloses(s, sid);
    assert ConnInv(s.table.conns[s.table.sessions[sid]]);
  }

  /** Of what a read loop decodes, exactly the envelopes of type 0 go to a session. */
  lemma {:induction false} OnlyTypeZero(s: State, t: Tid, room: bool)
    requires t in s.tasks && s.tasks[t].Loop? && Env.Parse(s.tasks[t].wire).Some?
    ensures var s' := Step(s, Advance(t, room));
            && t in s'.tasks && (s'.tasks[t].Lookup? <==> s.tasks[t].wire[1] == 0)
            && (s.tasks[t].wire[1] != 0 ==> s'.tasks[t].Loop? && s'.table == s.table)
  {
  }

  /** A read loop that can decode nothing more ends, and touches nothing. */
  lemma LoopEnds(s: State, t: Tid, room: bool)
    requires t in s.tasks && s.tasks[t].Loop?
    ensures var s' := Step(s, Advance(t, room));
            t !in s'.tasks <==> Env.Parse(s.tasks[t].wire).None?
    ensures Env.Parse(s.tasks[t].wire).None? ==> Step(s, Advance(t, room)) == s.(tasks := s.tasks - {t})
  {
  }

  /** The open channels are exactly the mapped ones. */
  ghost predicate NoOrphan(b: Table)
  {
    forall c :: 0 <= c < |b.conns| && !b.conns[c].live.closed ==> c in b.sessions.Values
  }

  /** The step stores an allocated id that is already mapped. */
  predicate Collides(s: State, a: Action)
  {
    a.Advance? && a.t in s.tasks && s.tasks[a.t].Register? && s.tasks[a.t].sid in s.table.sessions
  }

  lemma AddOrphans(b: Table, sid: Sid, c: Conn)
    requires TableInv(b) && NoOrphan(b) && !c.live.closed
    ensures NoOrphan(Add(b, sid, c)) <==> sid !in b.sessions
  {
    var b' := Add(b, sid, c);
    assert b'.sessions[sid] == |b.conns|;
    if sid !in b.sessions {
      forall i | 0 <= i < |b'.conns| && !b'.conns[i].live.closed ensures i in b'.sessions.Values {
        if i < |b.conns| {
          assert !b.conns[i].live.closed;
          var j :| j in b.sessions && b.sessions[j] == i;
          assert b'.sessions[j] == i;
        }
      }
    } else {
      var lost := b.sessions[sid];
      assert !b'.conns[lost].live.closed;
      assert forall j :: j in b'.sessions ==> b'.sessions[j] != lost;
    }
  }

  lemma RemoveOrphans(b: Table, sid: Sid)
    requires TableInv(b) && NoOrphan(b)
    ensures NoOrphan(Remove(b, sid))
  {
    var b' := Remove(b, sid);
    forall i | 0 <= i < |b'.conns| && !b'.conns[i].live.closed ensures i in b'.sessions.Values {
      var j :| j in b.sessions && b.sessions[j] == i;
      assert j in b'.sessions && b'.sessions[j] == i;
    }
  }

  lemma SameOpenSameOrphans(b: Table, b': Table)
    requires NoOrphan(b) && b'.sessions == b.sessions && |b'.conns| == |b.conns|
    requires forall c :: 0 <= c < |b.conns| ==> b'.conns[c].live.closed == b.conns[c].live.closed
    ensures NoOrphan(b')
  {
  }

  /** Exactly one step creates an open channel nobody can reach: registering an allocated id
      that is still mapped. Without such a collision mapped and open channels coincide. */
  lemma OrphanStep(s: State, a: Action)
    requires TableInv(s.table) && NoOrphan(s.table)
    ensures NoOrphan(Step(s, a).table) <==> !Collides(s, a)
  {
    match a
    case CloseSession(sid) => RemoveOrphans(s.table, sid);
    case CloseAll => RemoveAllOrphans(s.table);
    case ReadConn(c, n, expired) => SameOpenSameOrphans(s.table, Step(s, a).table);
    case Advance(t, room) => if t in s.tasks { AdvanceOrphans(s, t, s.tasks[t], room); }
    case _ =>
  }

  lemma AdvanceOrphans(s: State, t: Tid, k: Task, room: bool)
    requires TableInv(s.table) && NoOrphan(s.table)
    ensures NoOrphan(AdvanceTask(s, t, k, room).table) <==> !(k.Register? && k.sid in s.table.sessions)
  {
    match k
    case Lookup(e, _, _) =>
      if e.session !in s.table.sessions { AddOrphans(s.table, e.session, OpenedBy(e)); }
    case Register(sid, peer) => AddOrphans(s.table, sid, NewConn(peer));
    case Evict(sid, _, _) => RemoveOrphans(s.table, sid);
    case SendOutside(c, e, _, _) => SameOpenSameOrphans(s.table, SendIn(s.table, c, e));
    case _ =>
  }

  lemma RemoveAllOrphans(b: Table)
    requires TableInv(b) && NoOrphan(b)
    ensures NoOrphan(RemoveAll(b))
  {
    var b' := RemoveAll(b);
    forall i | 0 <= i < |b'.conns| ensures b'.conns[i].live.closed {
      assert i in b.sessions.Values || b.conns[i].live.closed;
    }
  }

  ghost predicate NoCollision(actions: seq<Action>)
  {
    actions == [] ||
    (var init := actions[..|actions| - 1];
     NoCollision(init) && !Collides(Run(INIT, init), actions[|actions| - 1]))
  }

  /** On every run in which no allocated id meets a mapped one, mapped equals open. */
  lemma {:induction false} MappedIsOpen(actions: seq<Action>)
    requires NoCollision(actions)
    ensures NoOrphan(Run(INIT, actions).table)
    decreases |actions|
  {
    if actions == [] {
    } else {
      var init := actions[..|actions| - 1];
      MappedIsOpen(init);
      TableSafe(init);
      OrphanStep(Run(INIT, init), actions[|actions| - 1]);
    }
  }

  ghost predicate TidsFresh(s: State) { forall t :: t in s.tasks ==> t < s.nextTid }

  lemma {:induction false} TidsStayFresh(actions: seq<Action>)
    ensures TidsFresh(Run(INIT, actions))
    decreases |actions|
  {
    if actions == [] {
    } else {
      TidsStayFresh(actions[..|actions| - 1]);
      TidsFreshStep(Run(INIT, actions[..|actions| - 1]), actions[|actions| - 1]);
    }
  }

  lemma TidsFreshStep(s: State, a: Action)
    requires TidsFresh(s)
    ensures TidsFresh(Step(s, a))
  {
  }

  // ------------------------------------------------------------ session ids

  function Allocations(actions: seq<Action>): nat
  {
    if actions == [] then 0
    else Allocations(actions[..|actions| - 1]) + if actions[|actions| - 1].NewSession? then 1 else 0
  }

  lemma CounterStep(s: State, a: Action)
    ensures Step(s, a).nextSid == if a.NewSession? then (s.nextSid + 1) % POW_2_32 else s.nextSid
    ensures a.NewSession? ==> Step(s, a).tasks == s.tasks[s.nextTid := Register(Step(s, a).nextSid, a.peer)]
  {
  }

  lemma NextMod(n: nat)
    ensures (n % POW_2_32 + 1) % POW_2_32 == (n + 1) % POW_2_32
  {
    var q, r := n / POW_2_32, n % POW_2_32;
    if r + 1 < POW_2_32 {
      ModUnique(n + 1, POW_2_32, q, r + 1);
    } else {
      ModUnique(n + 1, POW_2_32, q + 1, 0);
    }
  }

  lemma {:induction false} CounterCounts(actions: seq<Action>)
    ensures Run(INIT, actions).nextSid == Allocations(actions) % POW_2_32
    decreases |actions|
  {
    if actions == [] {
    } else {
      var init := actions[..|actions| - 1];
      CounterCounts(init);
      CounterStep(Run(INIT, init), actions[|actions| - 1]);
      NextMod(Allocations(init));
    }
  }

  /** Session ids count up from 1 and wrap at 2^32: over every run, the next session opened here gets the
      number of those opened before, plus one. */
  lemma {:induction false} IdsCountUp(actions: seq<Action>, peer: Env.PeerId)
    ensures var s := Run(INIT, actions);
            Step(s, NewSession(peer)).tasks == s.tasks[s.nextTid := Register((Allocations(actions) + 1) % POW_2_32, peer)]
  {
    CounterCounts(actions);
    CounterStep(Run(INIT, actions), NewSession(peer));
    NextMod(Allocations(actions));
  }

  // ------------------------------------------------------- whose payloads

  /** Every payload the session accepted came from the peer it belongs to. */
  ghost predicate OwnOnly(c: Conn) { AllAre(c.sources, c.peer) }

  ghost predicate AllAre(xs: seq<Env.PeerId>, p: Env.PeerId) { forall i :: 0 <= i < |xs| ==> xs[i] == p }

  lemma AllAreSnoc(xs: seq<Env.PeerId>, x: Env.PeerId, p: Env.PeerId)
    ensures AllAre(xs + [x], p) <==> AllAre(xs, p) && x == p
  {
    assert (xs + [x])[|xs|] == x;
    assert forall i :: 0 <= i < |xs| ==> (xs + [x])[i] == xs[i];
  }

  ghost predicate Pure(b: Table)
  {
    forall c :: 0 <= c < |b.conns| ==> OwnOnly(b.conns[c])
  }

  /** The step puts a payload of one peer into an open channel of another peer's session. */
  predicate Misdelivers(s: State, a: Action)
  {
    && a.Advance? && a.t in s.tasks && s.tasks[a.t].SendOutside? && s.tasks[a.t].conn < |s.table.conns|
    && var c := s.table.conns[s.tasks[a.t].conn];
       HasRoom(c.live) && s.tasks[a.t].env.src != c.peer
  }

  lemma SendPurity(b: Table, c: Cid, e: Env.Envelope)
    requires Pure(b) && c < |b.conns|
    ensures Pure(SendIn(b, c, e)) <==> !HasRoom(b.conns[c].live) || e.src == b.conns[c].peer
  {
    var b' := SendIn(b, c, e);
    assert OwnOnly(b.conns[c]);
    AllAreSnoc(b.conns[c].sources, e.src, b.conns[c].peer);
    assert OwnOnly(b'.conns[c]) <==> !HasRoom(b.conns[c].live) || e.src == b.conns[c].peer;
    forall i | 0 <= i < |b'.conns| && i != c ensures OwnOnly(b'.conns[i]) {
      assert b'.conns[i] == b.conns[i];
    }
  }

  lemma AddPure(b: Table, sid: Sid, c: Conn)
    requires Pure(b) && OwnOnly(c)
    ensures Pure(Add(b, sid, c))
  {
  }

  // Closing and reading leave the sources alone.
  lemma SameSources(b: Table, b': Table)
    requires Pure(b) && |b'.conns| == |b.conns|
    requires forall c :: 0 <= c < |b.conns| ==> b'.conns[c].sources == b.conns[c].sources && b'.conns[c].peer == b.conns[c].peer
    ensures Pure(b')
  {
    forall c | 0 <= c < |b'.conns| ensures OwnOnly(b'.conns[c]) {
      assert OwnOnly(b.conns[c]);
    }
  }

  /** dispatchData looks at the session id alone: exactly the sends of a foreign envelope into a
      channel with room make some session accept a payload that is not its peer's. */
  lemma PurityStep(s: State, a: Action)
    requires Pure(s.table)
    ensures Pure(Step(s, a).table) <==> !Misdelivers(s, a)
  {
    match a
    case Advance(t, room) => if t in s.tasks { AdvancePurity(s, t, s.tasks[t], room); }
    case CloseSession(sid) => SameSources(s.table, Step(s, a).table);
    case CloseAll => SameSources(s.table, Step(s, a).table);
    case ReadConn(c, n, expired) => SameSources(s.table, Step(s, a).table);
    case _ =>
  }

  lemma AdvancePurity(s: State, t: Tid, k: Task, room: bool)
    requires Pure(s.table) && t in s.tasks && s.tasks[t] == k
    ensures Pure(AdvanceTask(s, t, k, room).table) <==> !Misdelivers(s, Advance(t, room))
  {
    match k
    case Lookup(e, _, _) => if e.session !in s.table.sessions { AddPure(s.table, e.session, OpenedBy(e)); }
    case Register(sid, peer) => AddPure(s.table, sid, NewConn(peer));
    case SendOutside(c, e, _, _) => if c < |s.table.conns| { SendPurity(s.table, c, e); }
    case Evict(sid, _, _) => SameSources(s.table, Remove(s.table, sid));
    case _ =>
  }

  /** Over every run: a session that accepted a foreign payload goes back to such a send. */
  lemma {:induction false} ImpurityTraced(actions: seq<Action>)
    ensures Pure(Run(INIT, actions).table)
            || exists i :: 0 <= i < |actions| && Misdelivers(Run(INIT, actions[..i]), actions[i])
    decreases |actions|
  {
    if actions == [] {
    } else {
      var n := |actions| - 1;
      var init := actions[..n];
      ImpurityTraced(init);
      if Pure(Run(INIT, init).table) {
        PurityStep(Run(INIT, init), actions[n]);
      } else {
        var i :| 0 <= i < |init| && Misdelivers(Run(INIT, init[..i]), init[i]);
        assert init[..i] == actions[..i] && init[i] == actions[i];
      }
    }
  }

  // ------------------------------------------------------------ a collision

  lemma {:induction false} RunSnoc(s: State, actions: seq<Action>, a: Action)
    ensures Run(s, actions + [a]) == Step(Run(s, actions), a)
  {
    assert (actions + [a])[..|actions|] == actions;
  }

  // A read loop decodes `e` and looks its session up.
  lemma LookedUp(s: State, p: seq<Action>, e: Env.Envelope) returns (actions: seq<Action>)
    requires s == Run(INIT, p) && s.tasks == map[] && e.streamType == Env.STREAM_DATA && |e.payload| < POW_2_32
    ensures Run(INIT, actions) == s.(tasks := map[s.nextTid := Lookup(e, [e], [])], nextTid := s.nextTid + 1)
  {
    Env.RoundTrip(e, []);
    var w := Env.Wire(e);
    assert w + [] == w && w[|w|..] == [] && [] + [e] == [e];
    RunSnoc(INIT, p, Connect(w));
    actions := p + [Connect(w)];
    assert Run(INIT, actions) == s.(tasks := map[s.nextTid := Loop([], w)], nextTid := s.nextTid + 1);
    RunSnoc(INIT, actions, Advance(s.nextTid, true));
    actions := actions + [Advance(s.nextTid, true)];
  }

  // The session a remote DATA envelope has created.
  lemma RemoteSession(e: Env.Envelope) returns (actions: seq<Action>)
    requires e.streamType == Env.STREAM_DATA && |e.payload| < POW_2_32
    ensures Run(INIT, actions) == State(Table(map[e.session := 0], [OpenedBy(e)]), 0, map[0 := Announce(e.session, [e], [])], 1)
  {
    actions := LookedUp(INIT, [], e);
    RunSnoc(INIT, actions, Advance(0, true));
    actions := actions + [Advance(0, true)];
  }

  /** Both ends count their sessions from 1. For every envelope with which a remote peer opens
      session 1, the first session opened here, to any peer, gets the same id, and the remote
      session's channel stays open with nothing in the table leading to it. */
  lemma {:induction false} FirstIdsCollide(e: Env.Envelope, peer: Env.PeerId)
    requires e.session == 1 && e.streamType == Env.STREAM_DATA && |e.payload| < POW_2_32
    ensures exists actions ::
              var b := Run(INIT, actions).table;
              && !NoOrphan(b) && b.sessions == map[1 := 1] && |b.conns| == 2
              && b.conns[0] == OpenedBy(e) && !b.conns[0].live.closed
  {
    var p := RemoteSession(e);
    RunSnoc(INIT, p, NewSession(peer));
    var p1 := p + [NewSession(peer)];
    assert Run(INIT, p1).tasks == map[0 := Announce(1, [e], []), 1 := Register(1, peer)];
    RunSnoc(INIT, p1, Advance(1, true));
    var b := Run(INIT, p1 + [Advance(1, true)]).table;
    assert b.sessions == map[1 := 1];
    assert 0 !in b.sessions.Values;
  }

  // The first session opened here, to `peer`.
  lemma LocalSession(peer: Env.PeerId) returns (actions: seq<Action>)
    ensures Run(INIT, actions) == State(Table(map[1 := 0], [NewConn(peer)]), 1, map[], 1)
  {
    RunSnoc(INIT, [], NewSession(peer));
    actions := [] + [NewSession(peer)];
    assert Run(INIT, actions) == State(Table(map[], []), 1, map[0 := Register(1, peer)], 1);
    RunSnoc(INIT, actions, Advance(0, true));
    actions := actions + [Advance(0, true)];
    assert Run(INIT, actions).tasks == map[];
  }

  /** A session opened here to one peer is fed by any other peer that uses its id: for every DATA
      envelope of session 1 and every peer there is a run in which the session of that peer accepts
      the envelope's payload. */
  lemma {:induction false} ForeignPayload(e: Env.Envelope, peer: Env.PeerId)
    requires e.session == 1 && e.streamType == Env.STREAM_DATA && |e.payload| < POW_2_32
    ensures exists actions ::
              var b := Run(INIT, actions).table;
              && b.sessions == map[1 := 0] && |b.conns| == 1 && b.conns[0].peer == peer
              && b.conns[0].accepted == [e.payload] && b.conns[0].sources == [e.src]
              && (Pure(b) <==> e.src == peer)
  {
    var p := LocalSession(peer);
    var p1 := LookedUp(Run(INIT, p), p, e);
    RunSnoc(INIT, p1, Advance(1, true));
    var p2 := p1 + [Advance(1, true)];
    assert Run(INIT, p2) == State(Table(map[1 := 0], [NewConn(peer)]), 1, map[1 := SendOutside(0, e, [e], [])], 2);
    RunSnoc(INIT, p2, Advance(1, true));
    FedTable(e, peer);
    assert Run(INIT, p2 + [Advance(1, true)]).table == SendIn(Table(map[1 := 0], [NewConn(peer)]), 0, e);
  }

  lemma FedTable(e: Env.Envelope, peer: Env.PeerId)
    ensures var b := SendIn(Table(map[1 := 0], [NewConn(peer)]), 0, e);
            && b.sessions == map[1 := 0] && |b.conns| == 1 && b.conns[0].peer == peer
            && b.conns[0].accepted == [e.payload] && b.conns[0].sources == [e.src]
            && (Pure(b) <==> e.src == peer)
  {
    SendPurity(Table(map[1 := 0], [NewConn(peer)]), 0, e);
  }
}

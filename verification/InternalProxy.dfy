/** The session methods of internal/h2proxy/proxy.go on the object itself: each method here is
    one section under sessMu or wrMu, proved to do to the session map and the channels what the
    table of Sessions says. */
module InternalProxies {
  import opened Basics
  import opened Streams
  import opened NetConns
  import Env = Envelopes
  import Sessions

  /** The objects are, in channel contents and leftovers, the entries of the table. */
  ghost predicate SameViews(entries: seq<EnvelopeNetConn>, b: Sessions.Table)
    reads entries
  {
    |entries| == |b.conns| && forall i :: 0 <= i < |entries| ==> entries[i].View() == b.conns[i].live
  }

  ghost predicate Distinct(entries: seq<EnvelopeNetConn>)
  {
    forall i, j :: 0 <= i < j < |entries| ==> entries[i] != entries[j]
  }

  /** The ids map to the same entries. */
  ghost predicate Mapped(sessions: map<uint32, EnvelopeNetConn>, entries: seq<EnvelopeNetConn>, b: Sessions.Table)
  {
    && sessions.Keys == b.sessions.Keys
    && (forall sid :: sid in sessions ==> b.sessions[sid] < |entries| && sessions[sid] == entries[b.sessions[sid]])
  }

  lemma StoreMaps(sessions: map<uint32, EnvelopeNetConn>, entries: seq<EnvelopeNetConn>, b: Sessions.Table,
                  sid: uint32, c: EnvelopeNetConn, x: Conn)
    requires Mapped(sessions, entries, b) && Distinct(entries) && |entries| == |b.conns| && c !in entries
    ensures Mapped(sessions[sid := c], entries + [c], Sessions.Add(b, sid, x)) && Distinct(entries + [c])
  {
  }

  lemma NothingMapped(entries: seq<EnvelopeNetConn>, b: Sessions.Table)
    ensures Mapped(map[], entries, Sessions.RemoveAll(b))
  {
  }

  /** The table after an envelope of an unknown session: the session is announced, or refused. */
  function Opened(b: Sessions.Table, e: Env.Envelope, acceptRoom: bool): Sessions.Table
  {
    var b' := Sessions.Add(b, e.session, Sessions.OpenedBy(e));
    if acceptRoom then b' else Sessions.Remove(b', e.session)
  }

  lemma PutAndTake(m: map<uint32, EnvelopeNetConn>, sid: uint32, c: EnvelopeNetConn)
    requires sid !in m
    ensures m[sid := c] - {sid} == m
  {
  }

  class InternalProxy {
    var sessions: map<uint32, EnvelopeNetConn>
    var nextSid: uint32
    var writer: Option<Writer>
    ghost var entries: seq<EnvelopeNetConn>      // every session entry ever created

    constructor ()
      ensures sessions == map[] && nextSid == 0 && writer == None && Mirrors(Sessions.INIT.table)
    {
      sessions, nextSid, writer, entries := map[], 0, None, [];
    }

    /** The object holds what table `b` says: the same entries, with the same channel contents and
        leftovers, mapped under the same ids. */
    ghost predicate Mirrors(b: Sessions.Table)
      reads this, entries
    {
      SameViews(entries, b) && Distinct(entries) && Mapped(sessions, entries, b)
    }

    /** A new entry is stored under `sid`, in place of whatever was there. */
    method Store(sid: uint32, c: EnvelopeNetConn, ghost b: Sessions.Table, ghost x: Conn)
      requires Mirrors(b) && c !in entries && c.View() == x.live
      modifies this`sessions, this`entries
      ensures Mirrors(Sessions.Add(b, sid, x)) && sessions == old(sessions)[sid := c] && entries == old(entries) + [c]
    {
      StoreMaps(sessions, entries, b, sid, c, x);
      sessions, entries := sessions[sid := c], entries + [c];
    }

    /** NewSession: ids count up and wrap; the entry replaces whatever the id was mapped to. */
    method NewSession(peer: Env.PeerId, ghost b: Sessions.Table) returns (sid: uint32, c: EnvelopeNetConn)
      requires Mirrors(b)
      modifies this
      ensures Mirrors(Sessions.Add(b, sid, NewConn(peer)))
      ensures fresh(c) && c.View() == FRESH
      ensures sid == nextSid == (old(nextSid) + 1) % POW_2_32
      ensures sessions == old(sessions)[sid := c] && writer == old(writer)
    {
      nextSid := (nextSid + 1) % POW_2_32;
      sid := nextSid;
      c := new EnvelopeNetConn();
      Store(sid, c, b, NewConn(peer));
    }

    /** dispatchData, known id: the payload goes to the entry the id maps to, whoever sent it. */
    method DispatchKnown(e: Env.Envelope, ghost b: Sessions.Table)
      requires Mirrors(b) && e.session in sessions
      modifies sessions[e.session]
      ensures Mirrors(Sessions.SendIn(b, b.sessions[e.session], e))
      ensures sessions[e.session].View() == Send(old(sessions[e.session].View()), e.payload)
    {
      sessions[e.session].SafeSend(e.payload);
    }

    /** dispatchData, unknown id: a session of the sender's that already holds the payload. */
    method DispatchNew(e: Env.Envelope, ghost b: Sessions.Table) returns (c: EnvelopeNetConn)
      requires Mirrors(b) && e.session !in sessions
      modifies this`sessions, this`entries
      ensures fresh(c) && c.View() == Live([e.payload], false, [])
      ensures sessions == old(sessions)[e.session := c] && Mirrors(Sessions.Add(b, e.session, Sessions.OpenedBy(e)))
    {
      c := new EnvelopeNetConn();
      c.SafeSend(e.payload);
      assert c.View() == Sessions.OpenedBy(e).live;
      Store(e.session, c, b, Sessions.OpenedBy(e));
    }

    /** ... and if acceptCh has no room for it, it is removed and closed again. */
    method DispatchUnknown(e: Env.Envelope, acceptRoom: bool, ghost b: Sessions.Table) returns (c: EnvelopeNetConn)
      requires Mirrors(b) && e.session !in sessions
      modifies this`sessions, this`entries
      ensures Mirrors(Opened(b, e, acceptRoom)) && fresh(c) && c.View() == Live([e.payload], !acceptRoom, [])
      ensures sessions == if acceptRoom then old(sessions)[e.session := c] else old(sessions)
    {
      c := DispatchNew(e, b);
      ghost var b1 := Sessions.Add(b, e.session, Sessions.OpenedBy(e));
      assert sessions[e.session] == c;
      PutAndTake(old(sessions), e.session, c);
      if acceptRoom {
        assert Opened(b, e, acceptRoom) == b1;
      } else {
        RemoveSession(e.session, b1);
        assert Opened(b, e, acceptRoom) == Sessions.Remove(b1, e.session);
      }
    }

    method DispatchData(e: Env.Envelope, acceptRoom: bool, ghost b: Sessions.Table) returns (c: EnvelopeNetConn)
      requires Mirrors(b)
      modifies this`sessions, this`entries, if e.session in sessions then {sessions[e.session]} else {}
      ensures e.session in old(sessions) ==>
                && Mirrors(Sessions.SendIn(b, b.sessions[e.session], e))
                && c == old(sessions)[e.session]
                && sessions == old(sessions)
                && c.View() == Send(old(sessions[e.session].View()), e.payload)
      ensures e.session !in old(sessions) ==>
                && Mirrors(Opened(b, e, acceptRoom))
                && fresh(c)
                && sessions == (if acceptRoom then old(sessions)[e.session := c] else old(sessions))
                && c.View() == Live([e.payload], !acceptRoom, [])
    {
      if e.session in sessions {
        c := sessions[e.session];
        DispatchKnown(e, b);
      } else {
        c := DispatchUnknown(e, acceptRoom, b);
      }
    }

    /** removeSession: a second removal of the same id does nothing. */
    method RemoveSession(sid: uint32, ghost b: Sessions.Table)
      requires Mirrors(b)
      modifies this`sessions, if sid in sessions then {sessions[sid]} else {}
      ensures Mirrors(Sessions.Remove(b, sid))
      ensures sessions == old(sessions) - {sid}
      ensures sid in old(sessions) ==>
                old(sessions)[sid].View() == Close(old(sessions[sid].View()))
    {
      if sid in sessions {
        sessions[sid].CloseOnce();
        sessions := sessions - {sid};
      }
    }

    /** closeAllSessions: every mapped session is closed, its queue and leftovers kept. */
    method CloseAllSessions(ghost b: Sessions.Table)
      requires Mirrors(b)
      modifies this`sessions, sessions.Values
      ensures Mirrors(Sessions.RemoveAll(b)) && sessions == map[]
      ensures forall c :: c in old(sessions.Values) ==> c.View() == Close(old(c.View()))
    {
      NothingMapped(entries, b);
      var all := sessions;
      sessions := map[];
      CloseAll(all, entries, b);
    }

    /** writeEnvelope: refused while disconnected; otherwise both writes under one lock. */
    method WriteEnvelope(e: Env.Envelope) returns (ok: bool)
      modifies if writer.Some? then {writer.value} else {}
      ensures writer.None? ==> !ok
      ensures writer.Some? ==>
                var w := writer.value;
                var n := |Env.Wire(e)|;
                && ok == (n <= old(w.room))
                && w.written == old(w.written) + Env.Wire(e)[..Min(n, old(w.room))]
                && w.room == old(w.room) - Min(n, old(w.room))
    {
      if writer.None? {
        return false;
      }
      ok := Env.Encode(writer.value, e);
    }
  }

  /** The Write of a session: its bytes go out in one DATA envelope of version 1 from this node to the
      session's peer, or as much of it as the stream takes. */
  method SessionWrite(proxy: InternalProxy, self: Env.PeerId, peer: Env.PeerId, sid: uint32, p: Bytes) returns (ok: bool)
    modifies if proxy.writer.Some? then {proxy.writer.value} else {}
    ensures proxy.writer.None? ==> !ok
    ensures proxy.writer.Some? ==>
              var w, wire := proxy.writer.value, DataWire(self, peer, sid, p);
              && ok == (|wire| <= old(w.room))
              && w.written == old(w.written) + wire[..Min(|wire|, old(w.room))]
  {
    WrittenData(self, peer, sid, p);
    ok := proxy.WriteEnvelope(Env.Envelope(1, Env.STREAM_DATA, self, peer, sid, p));
  }

  /** The bytes of a DATA envelope. */
  function DataWire(self: Env.PeerId, peer: Env.PeerId, sid: uint32, p: Bytes): Bytes
  {
    [1, 0] + self + peer + ToBE(sid, 4) + ToBE(|p| % POW_2_32, 4) + p
  }

  lemma WrittenData(self: Env.PeerId, peer: Env.PeerId, sid: uint32, p: Bytes)
    ensures Env.Wire(Env.Envelope(1, Env.STREAM_DATA, self, peer, sid, p)) == DataWire(self, peer, sid, p)
  {
  }

  /** Close every session of the map. */
  method CloseMapped(sessions: map<uint32, EnvelopeNetConn>)
    modifies sessions.Values
    ensures forall c :: c in sessions.Values ==> c.View() == Close(old(c.View()))
  {
    var todo := sessions.Keys;
    while todo != {}
      invariant todo <= sessions.Keys
      invariant forall sid :: sid in sessions && sid !in todo ==>
                  sessions[sid].View() == Close(old(sessions[sid].View()))
      invariant forall sid :: sid in sessions ==>
                  sessions[sid].View() == old(sessions[sid].View())
                  || sessions[sid].View() == Close(old(sessions[sid].View()))
      decreases todo
    {
      var sid :| sid in todo;
      sessions[sid].CloseOnce();
      todo := todo - {sid};
    }
  }

  method CloseAll(sessions: map<uint32, EnvelopeNetConn>, ghost entries: seq<EnvelopeNetConn>, ghost b: Sessions.Table)
    requires SameViews(entries, b) && Distinct(entries) && Mapped(sessions, entries, b)
    modifies sessions.Values
    ensures SameViews(entries, Sessions.RemoveAll(b))
    ensures forall c :: c in sessions.Values ==> c.View() == Close(old(c.View()))
  {
    MappedEntries(sessions, entries, b);
    CloseMapped(sessions);
    ClosedViews(b);
  }

  // What closeAllSessions does to an entry, in the table.
  lemma ClosedViews(b: Sessions.Table)
    ensures var b' := Sessions.RemoveAll(b);
            && |b'.conns| == |b.conns|
            && forall i :: 0 <= i < |b.conns| ==>
                 b'.conns[i].live == if i in b.sessions.Values then Close(b.conns[i].live) else b.conns[i].live
  {
  }

  // The mapped objects are the entries the table maps.
  lemma MappedEntries(sessions: map<uint32, EnvelopeNetConn>, entries: seq<EnvelopeNetConn>, b: Sessions.Table)
    requires Distinct(entries) && Mapped(sessions, entries, b)
    ensures forall i :: 0 <= i < |entries| ==> (entries[i] in sessions.Values <==> i in b.sessions.Values)
  {
  }
}

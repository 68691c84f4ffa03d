/** Runs of the path-switching code that end without a live path. PathCoverage and PathActive
    give the exact steps at which that happens. */
module PathFindings {
  import opened Basics
  import opened PeerEntries
  import opened PathSwitch
  import opened PathOwnership
  import PathActive
  import PathCoverage

  // ------------------------------------------------------------- building runs

  function Follow(s: State, actions: seq<Action>): State
  {
    if actions == [] then s else Step(Follow(s, actions[..|actions| - 1]), actions[|actions| - 1])
  }

  ghost predicate Leads(s: State, s': State) { exists actions :: s' == Follow(s, actions) }

  lemma {:induction false} FollowConcat(s: State, a: seq<Action>, b: seq<Action>)
    ensures Follow(s, a + b) == Follow(Follow(s, a), b)
    decreases |b|
  {
    if b == [] {
      assert a + b == a;
    } else {
      FollowConcat(s, a, b[..|b| - 1]);
      assert (a + b)[..|a + b| - 1] == a + b[..|b| - 1];
    }
  }

  lemma Then(s: State, m: State, s': State)
    requires Leads(s, m) && Leads(m, s')
    ensures Leads(s, s')
  {
    var a :| m == Follow(s, a);
    var b :| s' == Follow(m, b);
    FollowConcat(s, a, b);
  }

  lemma One(s: State, a: Action)
    ensures Leads(s, Step(s, a))
  {
    assert [a][..0] == [];
    assert Follow(s, [a]) == Step(Follow(s, []), a);
  }

  lemma {:induction false} FollowIsRun(role: Role, actions: seq<Action>)
    ensures Follow(Init(role), actions) == Run(role, actions)
    decreases |actions|
  {
    if actions == [] {
    } else {
      FollowIsRun(role, actions[..|actions| - 1]);
    }
  }

  // ---- segments of runs, from any state

  // A goroutine takes one step; `s'` is where that leads.
  lemma Move(s: State, t: Tid) returns (s': State)
    ensures Leads(s, s') && s' == Step(s, Go(t, true))
  {
    One(s, Go(t, true));
    s' := Step(s, Go(t, true));
  }

  // setupRelayPeers claims the flag and launches retryConnectPeer.
  lemma RetryLaunched(s: State) returns (s': State)
    requires FreshTids(s) && s.role == Client && !s.entry.retryingConn
    ensures Leads(s, s') && s'.role == Client
    ensures s'.entry == s.entry.(relayConn := None, retryingConn := true)
    ensures s'.tasks == s.tasks[s.nextTid + 1 := RetryCheck] && s'.nextTid == s.nextTid + 2 && FreshTids(s')
    ensures s'.nextConn == s.nextConn
  {
    var t := s.nextTid;
    One(s, Reconnect);
    var s1 := Step(s, Reconnect);
    var s2 := Move(s1, t);
    var s3 := Move(s2, t);
    s' := Move(s3, t);
    Then(s, s1, s2);
    Then(s, s2, s3);
    Then(s, s3, s');
  }

  // An inbound CONNECT-IP becomes the direct path and its forwarder runs.
  lemma DirectUp(s: State) returns (s': State)
    requires FreshTids(s)
    ensures Leads(s, s') && s'.role == s.role
    ensures s'.entry == s.entry.(hasDirectPath := true, active := Some(s.nextConn))
    ensures s'.tasks == s.tasks[s.nextTid + 1 := DirectForward(s.nextConn)] && s'.nextTid == s.nextTid + 2 && FreshTids(s')
    ensures s'.nextConn == s.nextConn + 1
  {
    var t := s.nextTid;
    var s1 := DirectCommitted(s);
    var s2 := Move(s1, t);
    s' := Move(s2, t);
    Then(s, s1, s2);
    Then(s, s2, s');
  }

  lemma DirectCommitted(s: State) returns (s': State)
    requires FreshTids(s)
    ensures Leads(s, s') && s'.role == s.role && FreshTids(s') && s'.nextTid == s.nextTid + 1 && s'.nextConn == s.nextConn + 1
    ensures s'.entry == s.entry.(hasDirectPath := true) && s'.tasks == s.tasks[s.nextTid := Activate(s.nextConn, Direct)]
  {
    One(s, InboundDirect);
    var s1 := Step(s, InboundDirect);
    s' := Move(s1, s.nextTid);
    Then(s, s1, s');
  }

  // The direct conn breaks: cleared, and the fallback committed.
  lemma DirectBreaks(s: State, t: Tid, c: Conn) returns (s': State)
    requires FreshTids(s) && t in s.tasks && s.tasks[t] == DirectForward(c) && s.entry.hasDirectPath && s.entry.active == Some(c)
    ensures Leads(s, s') && s'.role == s.role && FreshTids(s')
    ensures s'.entry == s.entry.(hasDirectPath := false, active := None)
    ensures s'.tasks == s.tasks[t := if s.role == Client then FallbackTake else FallbackRead]
    ensures s'.nextConn == s.nextConn
  {
    var s1 := Move(s, t);
    s' := Move(s1, t);
    Then(s, s1, s');
  }

  // The client's fallback takes relayConn and closes what it held ...
  lemma RelayTaken(s: State, t: Tid) returns (s': State)
    requires FreshTids(s) && t in s.tasks && s.tasks[t] == FallbackTake
    ensures Leads(s, s') && s'.role == s.role && FreshTids(s') && s'.nextConn == s.nextConn
    ensures s'.entry == s.entry.(relayConn := None) && s'.tasks == s.tasks[t := FallbackClaim]
  {
    var s1 := Takes(s, t);
    s' := Move(s1, t);
    Then(s, s1, s');
  }

  lemma Takes(s: State, t: Tid) returns (s': State)
    requires FreshTids(s) && t in s.tasks && s.tasks[t] == FallbackTake
    ensures Leads(s, s') && s'.role == s.role && FreshTids(s') && s'.nextConn == s.nextConn
    ensures s'.entry == s.entry.(relayConn := None) && s'.tasks == s.tasks[t := FallbackClose(s.entry.relayConn)]
  {
    s' := Move(s, t);
  }

  // ... then finds the retry flag set and leaves the retry to its owner.
  lemma ClaimRefused(s: State, t: Tid) returns (s': State)
    requires FreshTids(s) && t in s.tasks && s.tasks[t] == FallbackTake && s.entry.retryingConn
    ensures Leads(s, s') && s'.role == s.role && FreshTids(s') && s'.nextConn == s.nextConn
    ensures s'.entry == s.entry.(relayConn := None) && s'.tasks == s.tasks - {t}
  {
    var s1 := RelayTaken(s, t);
    s' := Move(s1, t);
    Then(s, s1, s');
  }

  // An incoming relay session is installed ...
  lemma RelayInstalled(s: State) returns (s': State)
    requires FreshTids(s)
    ensures Leads(s, s') && s'.role == s.role && FreshTids(s') && s'.nextTid == s.nextTid + 1
    ensures s'.entry == s.entry.(relayConn := Some(s.nextConn))
    ensures s'.tasks == s.tasks[s.nextTid := CloseOld(s.nextConn, s.entry.relayConn, Incoming)]
  {
    var s1 := Handshaken(s);
    s' := Move(s1, s.nextTid);
    Then(s, s1, s');
  }

  lemma Handshaken(s: State) returns (s': State)
    requires FreshTids(s)
    ensures Leads(s, s') && s'.role == s.role && FreshTids(s') && s'.nextTid == s.nextTid + 1
    ensures s'.entry == s.entry && s'.tasks == s.tasks[s.nextTid := Install(s.nextConn, Incoming)]
  {
    One(s, IncomingSession);
    var s1 := Step(s, IncomingSession);
    s' := Move(s1, s.nextTid);
    Then(s, s1, s');
  }

  // ... and becomes active, with its forwarder running.
  lemma Forwarded(s: State, t: Tid, c: Conn, who: Origin) returns (s': State)
    requires FreshTids(s) && t in s.tasks && s.tasks[t] == Activate(c, who) && who != Direct
    ensures Leads(s, s') && s'.role == s.role && FreshTids(s') && s'.nextTid == s.nextTid + 1
    ensures s'.entry == s.entry.(active := Some(c))
    ensures s'.tasks == (if who == Retry then s.tasks[t := RetryReset] else s.tasks - {t})[s.nextTid := RelayForward(c)]
  {
    var s1 := Move(s, t);
    s' := Move(s1, t);
    Then(s, s1, s');
  }

  lemma RelayForwarded(s: State, t: Tid, c: Conn, who: Origin) returns (s': State)
    requires FreshTids(s) && t in s.tasks && s.tasks[t] == CloseOld(c, None, who) && who != Direct
    ensures Leads(s, s') && s'.role == s.role && FreshTids(s') && s'.nextTid == s.nextTid + 1
    ensures s'.entry == s.entry.(active := Some(c))
    ensures s'.tasks == (if who == Retry then s.tasks[t := RetryReset] else s.tasks - {t})[s.nextTid := RelayForward(c)]
  {
    var s1 := Move(s, t);
    s' := Forwarded(s1, t, c, who);
    Then(s, s1, s');
  }

  // --------------------------------------------------------- the lost retry
  //
  // A retry goroutine that has seen a path decides to return; before its deferred reset the path
  // breaks, and the fallback finds the flag still set and leaves the retry to it.

  lemma LostRetry() returns (s: State)
    ensures Leads(Init(Client), s)
    ensures s.tasks == map[] && s.entry == Entry(None, false, false, None) && s.nextConn == 1
  {
    var s0 := Init(Client);
    var s1 := RetryLaunched(s0);
    var s2 := DirectUp(s1);
    Then(s0, s1, s2);
    var s3 := Move(s2, 1);
    Then(s0, s2, s3);
    s := LostRetryEnd(s3, 1, 3, s1.nextConn);
    Then(s0, s3, s);
  }

  lemma LostRetryEnd(s: State, r: Tid, f: Tid, c: Conn) returns (s': State)
    requires FreshTids(s) && s.role == Client && r != f
    requires s.tasks == map[r := RetryReset, f := DirectForward(c)]
    requires s.entry == Entry(None, true, true, Some(c))
    ensures Leads(s, s') && s'.tasks == map[] && s'.entry == Entry(None, false, false, None) && s'.nextConn == s.nextConn
  {
    var s1 := DirectBreaks(s, f, c);
    s' := BothGiveUp(s1, r, f);
    Then(s, s1, s');
  }

  lemma BothGiveUp(s: State, r: Tid, f: Tid) returns (s': State)
    requires FreshTids(s) && s.role == Client && r != f
    requires s.tasks == map[r := RetryReset, f := FallbackTake] && s.entry == Entry(None, false, true, None)
    ensures Leads(s, s') && s'.tasks == map[] && s'.entry == Entry(None, false, false, None) && s'.nextConn == s.nextConn
  {
    var s1 := ClaimRefused(s, f);
    s' := Move(s1, r);
    Then(s, s1, s');
  }

  /** A client that has had a connection can end with no path, no retry and no goroutine left
      that would start one. */
  lemma {:induction false} PathlessClient()
    ensures exists actions ::
              var s := Run(Client, actions);
              && s.nextConn > 0 && s.tasks == map[] && s.entry == Entry(None, false, false, None)
              && !PathCoverage.Covered(s)
  {
    var s := LostRetry();
    var p :| s == Follow(Init(Client), p);
    FollowIsRun(Client, p);
    assert Run(Client, p) == s;
  }

  // ------------------------------------------------ the dead conn on record
  //
  // A relay conn breaks: its forwarder only clears the active conn, the dead conn stays on record
  // in relayConn, and nobody is told to look for another.

  // The retry goroutine dials, installs and activates a relay conn, and starts its forwarder.
  lemma RetrySucceeds(s: State, r: Tid) returns (s': State)
    requires FreshTids(s) && s.role == Client && r in s.tasks && s.tasks[r] == RetryCheck
    requires !s.entry.hasDirectPath && s.entry.relayConn == None
    ensures Leads(s, s') && s'.role == s.role && FreshTids(s')
    ensures s'.entry == s.entry.(relayConn := Some(s.nextConn), active := Some(s.nextConn))
    ensures s'.tasks == s.tasks[r := RetryReset][s.nextTid := RelayForward(s.nextConn)]
  {
    var s1 := Move(s, r);
    s' := LateRetry(s1, r);
    Then(s, s1, s');
  }

  lemma DeadRecord() returns (s: State)
    ensures Leads(Init(Client), s)
    ensures s.tasks == map[] && s.entry == Entry(Some(0), false, false, None)
  {
    var s0 := Init(Client);
    var s1 := RetryLaunched(s0);
    var s2 := RetrySucceeds(s1, 1);
    Then(s0, s1, s2);
    s := DeadRecordEnd(s2, 1, 2, 0);
    Then(s0, s2, s);
  }

  lemma DeadRecordEnd(s: State, r: Tid, f: Tid, c: Conn) returns (s': State)
    requires FreshTids(s) && s.role == Client && r != f
    requires s.tasks == map[r := RetryReset, f := RelayForward(c)]
    requires s.entry == Entry(Some(c), false, true, Some(c))
    ensures Leads(s, s') && s'.tasks == map[] && s'.entry == Entry(Some(c), false, false, None)
  {
    s' := RelayBreaks(s, r, f, c);
  }

  /** A client whose only relay conn breaks has that conn on record, nothing active, no retry and
      no goroutine left. */
  lemma {:induction false} DeadConnRecorded()
    ensures exists actions ::
              var s := Run(Client, actions);
              s.tasks == map[] && s.entry == Entry(Some(0), false, false, None) && !PathCoverage.Covered(s)
  {
    var s := DeadRecord();
    var p :| s == Follow(Init(Client), p);
    FollowIsRun(Client, p);
    assert Run(Client, p) == s;
  }

  // ------------------------------------------------- the unused direct path
  //
  // A retry that is past its check installs and activates its relay conn although a direct path has
  // come up; when that conn breaks, the direct path stays on record and nobody sends through it.

  lemma UnusedDirect() returns (s: State)
    ensures Leads(Init(Client), s)
    ensures s.tasks == map[3 := DirectForward(0)] && s.entry == Entry(Some(1), true, false, None)
  {
    var s0 := Init(Client);
    var s1 := DirectDuringDial();
    s := RelayComesAndGoes(s1);
    Then(s0, s1, s);
  }

  lemma RelayComesAndGoes(s: State) returns (s': State)
    requires FreshTids(s) && s.nextTid == 4 && s.nextConn == 1
    requires s.tasks == map[1 := RetryDial, 3 := DirectForward(0)] && s.entry == Entry(None, true, true, Some(0))
    ensures Leads(s, s') && s'.tasks == map[3 := DirectForward(0)] && s'.entry == Entry(Some(1), true, false, None)
  {
    var s1 := LateRetry(s, 1);
    s' := RelayBreaks(s1, 1, 4, 1);
    Then(s, s1, s');
    assert s1.tasks == map[1 := RetryReset, 3 := DirectForward(0), 4 := RelayForward(1)];
  }

  lemma DirectDuringDial() returns (s: State)
    ensures Leads(Init(Client), s) && s.role == Client && FreshTids(s) && s.nextTid == 4 && s.nextConn == 1
    ensures s.tasks == map[1 := RetryDial, 3 := DirectForward(0)] && s.entry == Entry(None, true, true, Some(0))
  {
    var s0 := Init(Client);
    var s1 := RetryLaunched(s0);
    var s2 := Move(s1, 1);
    Then(s0, s1, s2);
    s := DirectUp(s2);
    Then(s0, s2, s);
  }

  // The dial of retry goroutine `r` succeeds whatever has happened meanwhile.
  lemma LateRetry(s: State, r: Tid) returns (s': State)
    requires FreshTids(s) && r in s.tasks && s.tasks[r] == RetryDial && s.entry.relayConn == None
    ensures Leads(s, s') && s'.role == s.role && FreshTids(s')
    ensures s'.entry == s.entry.(relayConn := Some(s.nextConn), active := Some(s.nextConn))
    ensures s'.tasks == s.tasks[r := RetryReset][s.nextTid := RelayForward(s.nextConn)]
  {
    var s1 := LateInstall(s, r);
    s' := RelayForwarded(s1, r, s.nextConn, Retry);
    Then(s, s1, s');
  }

  lemma LateInstall(s: State, r: Tid) returns (s': State)
    requires FreshTids(s) && r in s.tasks && s.tasks[r] == RetryDial && s.entry.relayConn == None
    ensures Leads(s, s') && s'.role == s.role && FreshTids(s') && s'.nextTid == s.nextTid
    ensures s'.entry == s.entry.(relayConn := Some(s.nextConn))
    ensures s'.tasks == s.tasks[r := CloseOld(s.nextConn, None, Retry)]
  {
    var s1 := Move(s, r);
    s' := Move(s1, r);
    Then(s, s1, s');
  }

  lemma RelayBreaks(s: State, r: Tid, f: Tid, c: Conn) returns (s': State)
    requires r in s.tasks && s.tasks[r] == RetryReset && f in s.tasks && s.tasks[f] == RelayForward(c)
    requires s.entry.active == Some(c)
    ensures Leads(s, s') && s'.tasks == s.tasks - {r} - {f}
    ensures s'.entry == s.entry.(retryingConn := false, active := None)
  {
    var s1 := Move(s, r);
    s' := Move(s1, f);
    Then(s, s1, s');
  }

  /** A client can have a direct path on record, with its forwarder reading, and no active conn, with
      nobody about to provide one. */
  lemma {:induction false} DirectPathUnused()
    ensures exists actions ::
              var s := Run(Client, actions);
              && s.entry.hasDirectPath && s.entry.active == None && s.tasks == map[3 := DirectForward(0)]
              && !PathCoverage.Usable(s)
  {
    var s := UnusedDirect();
    var p :| s == Follow(Init(Client), p);
    FollowIsRun(Client, p);
    assert Run(Client, p) == s && !PathCoverage.Usable(s);
  }

  // ------------------------------------------------- the restored dead conn
  //
  // The proxy's fallback reads relayConn, the relay forwarder exits meanwhile, and SetConn then
  // makes a conn active that nobody reads any more.

  lemma DeadRestore() returns (s: State)
    ensures Leads(Init(Proxy), s)
    ensures s.tasks == map[] && s.entry == Entry(Some(0), false, false, Some(0))
  {
    var s0 := Init(Proxy);
    var s1 := RelayInstalled(s0);
    var s2 := RelayForwarded(s1, 0, 0, Incoming);
    Then(s0, s1, s2);
    var s3 := DirectUp(s2);
    Then(s0, s2, s3);
    s := DeadRestoreEnd(s3, 1, 3, s2.nextConn);
    Then(s0, s3, s);
  }

  lemma DeadRestoreEnd(s: State, r: Tid, f: Tid, c: Conn) returns (s': State)
    requires FreshTids(s) && s.role == Proxy && r != f
    requires s.tasks == map[r := RelayForward(0), f := DirectForward(c)]
    requires s.entry == Entry(Some(0), true, false, Some(c))
    ensures Leads(s, s') && s'.tasks == map[] && s'.entry == Entry(Some(0), false, false, Some(0))
  {
    var s1 := DirectBreaks(s, f, c);
    s' := RestoreTooLate(s1, r, f);
    Then(s, s1, s');
  }

  lemma RestoreTooLate(s: State, r: Tid, f: Tid) returns (s': State)
    requires s.role == Proxy && r != f
    requires s.tasks == map[r := RelayForward(0), f := FallbackRead]
    requires s.entry == Entry(Some(0), false, false, None)
    ensures Leads(s, s') && s'.tasks == map[] && s'.entry == Entry(Some(0), false, false, Some(0))
  {
    var s1 := ReadsRelay(s, f);
    var s2 := ForwarderExits(s1, r);
    Then(s, s1, s2);
    s' := Restores(s2, f);
    Then(s, s2, s');
  }

  lemma ReadsRelay(s: State, f: Tid) returns (s': State)
    requires f in s.tasks && s.tasks[f] == FallbackRead && s.entry.relayConn.Some?
    ensures Leads(s, s') && s'.entry == s.entry && s'.tasks == s.tasks[f := FallbackRestore(s.entry.relayConn.value)]
  {
    s' := Move(s, f);
  }

  lemma ForwarderExits(s: State, r: Tid) returns (s': State)
    requires r in s.tasks && s.tasks[r].RelayForward? && s.entry.active == None
    ensures Leads(s, s') && s'.entry == s.entry && s'.tasks == s.tasks - {r}
  {
    s' := Move(s, r);
  }

  lemma Restores(s: State, f: Tid) returns (s': State)
    requires f in s.tasks && s.tasks[f].FallbackRestore?
    ensures Leads(s, s') && s'.entry == s.entry.(active := Some(s.tasks[f].c)) && s'.tasks == s.tasks - {f}
  {
    s' := Move(s, f);
  }

  /** A proxy can end with an active conn whose forwarder is gone; PathActive.GuardStep gives the
      exact step at which that happens. */
  lemma {:induction false} DeadConnActive()
    ensures exists actions ::
              var s := Run(Proxy, actions);
              s.entry.active.Some? && !PathActive.HasForwarder(s, s.entry.active.value) && s.tasks == map[]
  {
    var s := DeadRestore();
    var p :| s == Follow(Init(Proxy), p);
    FollowIsRun(Proxy, p);
    assert Run(Proxy, p) == s;
  }

  // ------------------------------------------------------ the forgotten path
  //
  // An inbound connection replaces an older one; the older one's forwarder then clears the flag that
  // stands for the newer one.

  lemma Forgotten() returns (s: State)
    ensures Leads(Init(Proxy), s)
    ensures s.tasks == map[3 := DirectForward(1)] && s.entry == Entry(None, false, false, Some(1))
  {
    var s0 := Init(Proxy);
    var s1 := DirectUp(s0);
    var s2 := DirectUp(s1);
    Then(s0, s1, s2);
    s := OlderBreaks(s2, 1, 3);
    Then(s0, s2, s);
  }

  lemma OlderBreaks(s: State, t: Tid, u: Tid) returns (s': State)
    requires s.role == Proxy && t != u && s.tasks == map[t := DirectForward(0), u := DirectForward(1)]
    requires s.entry == Entry(None, true, false, Some(1))
    ensures Leads(s, s') && s'.tasks == map[u := DirectForward(1)] && s'.entry == Entry(None, false, false, Some(1))
  {
    var s1 := OlderClears(s, t, u);
    var s2 := OlderForgets(s1, t, u);
    Then(s, s1, s2);
    s' := NothingToRestore(s2, t);
    Then(s, s2, s');
    OnlyOther(t, u, FallbackRead, DirectForward(1));
  }

  lemma OnlyOther(t: Tid, u: Tid, k: Task, k': Task)
    requires t != u
    ensures map[t := k, u := k'] - {t} == map[u := k']
  {
  }

  lemma NothingToRestore(s: State, t: Tid) returns (s': State)
    requires t in s.tasks && s.tasks[t] == FallbackRead && s.entry.relayConn == None
    ensures Leads(s, s') && s'.entry == s.entry && s'.tasks == s.tasks - {t}
  {
    s' := Move(s, t);
  }

  lemma OlderForgets(s: State, t: Tid, u: Tid) returns (s': State)
    requires s.role == Proxy && t != u && s.tasks == map[t := DirectFallback(0), u := DirectForward(1)]
    requires s.entry == Entry(None, true, false, Some(1))
    ensures Leads(s, s') && s'.role == Proxy && s'.entry == Entry(None, false, false, Some(1))
    ensures s'.tasks == map[t := FallbackRead, u := DirectForward(1)]
  {
    s' := Move(s, t);
  }

  lemma OlderClears(s: State, t: Tid, u: Tid) returns (s': State)
    requires s.role == Proxy && t != u && s.tasks == map[t := DirectForward(0), u := DirectForward(1)]
    requires s.entry == Entry(None, true, false, Some(1))
    ensures Leads(s, s') && s'.role == Proxy && s'.entry == s.entry
    ensures s'.tasks == map[t := DirectFallback(0), u := DirectForward(1)]
  {
    s' := Move(s, t);
  }

  /** A direct path can be active, with its forwarder reading, and not be on record. */
  lemma {:induction false} DirectPathForgotten()
    ensures exists actions ::
              var s := Run(Proxy, actions);
              s.tasks == map[3 := DirectForward(1)] && s.entry == Entry(None, false, false, Some(1))
  {
    var s := Forgotten();
    var p :| s == Follow(Init(Proxy), p);
    FollowIsRun(Proxy, p);
    assert Run(Proxy, p) == s;
  }
}

/** The goroutines of internal/manager/manager.go on the peer's record itself: each method is the
    straight-line code of one goroutine, updating the record in place, and is proved to do what
    the transition system does when that goroutine takes its steps without interruption. */
module PeerPaths {
  import opened Basics
  import opened PeerEntries
  import opened PathSwitch

  function Next(s: State, t: Tid): State { Step(s, Go(t, true)) }

  /** `n` steps of goroutine `t` in a row. */
  function Alone(s: State, t: Tid, n: nat): State
    decreases n
  {
    if n == 0 then s else Alone(Next(s, t), t, n - 1)
  }

  lemma Unroll(s: State, t: Tid)
    ensures Alone(s, t, 1) == Next(s, t) && Alone(s, t, 2) == Next(Next(s, t), t)
    ensures Alone(s, t, 3) == Next(Next(Next(s, t), t), t)
  {
    var s1 := Next(s, t);
    var s2 := Next(s1, t);
    assert Alone(s2, t, 1) == Alone(Next(s2, t), t, 0);
    assert Alone(s1, t, 2) == Alone(s2, t, 1);
    assert Alone(s1, t, 1) == Alone(s2, t, 0);
  }

  lemma More(s: State, t: Tid, n: nat)
    ensures Alone(s, t, n + 1) == Alone(Next(s, t), t, n)
    ensures n == 0 ==> Alone(s, t, 1) == Next(s, t)
  {
  }

  ghost predicate At(s: State, t: Tid, k: Task) { t in s.tasks && s.tasks[t] == k }

  lemma TakeStep(s: State, t: Tid)
    requires At(s, t, FallbackTake)
    ensures var s' := Next(s, t);
            && s'.role == s.role && s'.entry == ForgetRelay(s.entry) && s'.log.closes == s.log.closes && s'.nextConn == s.nextConn
            && At(s', t, FallbackClose(s.entry.relayConn))
  {
  }

  lemma CloseStep(s: State, t: Tid, o: Option<Conn>)
    requires At(s, t, FallbackClose(o))
    ensures var s' := Next(s, t);
            && s'.role == s.role && s'.entry == s.entry && At(s', t, FallbackClaim) && s'.nextConn == s.nextConn
            && s'.log.closes == if o.Some? then s.log.closes + multiset{o.value} else s.log.closes
  {
  }

  lemma TakeAndClose(s: State, t: Tid)
    requires At(s, t, FallbackTake)
    ensures var s', o := Next(Next(s, t), t), s.entry.relayConn;
            && s'.role == s.role && s'.entry == ForgetRelay(s.entry) && At(s', t, FallbackClaim) && s'.nextConn == s.nextConn
            && s'.log.closes == if o.Some? then s.log.closes + multiset{o.value} else s.log.closes
  {
    TakeStep(s, t);
    CloseStep(Next(s, t), t, s.entry.relayConn);
  }

  // Installing, closing what was displaced, activating.
  lemma InstallStep(s: State, t: Tid, c: Conn, who: Origin)
    requires At(s, t, Install(c, who))
    ensures var s' := Next(s, t);
            && s'.role == s.role && s'.entry == InstallRelay(s.entry, c) && s'.log.closes == s.log.closes
            && (s'.nextConn, s'.nextTid) == (s.nextConn, s.nextTid) && At(s', t, CloseOld(c, s.entry.relayConn, who))
  {
  }

  lemma CloseOldStep(s: State, t: Tid, c: Conn, o: Option<Conn>, who: Origin)
    requires At(s, t, CloseOld(c, o, who))
    ensures var s' := Next(s, t);
            && s'.role == s.role && s'.entry == s.entry && (s'.nextConn, s'.nextTid) == (s.nextConn, s.nextTid)
            && s'.log.closes == (if o.Some? then s.log.closes + multiset{o.value} else s.log.closes)
            && At(s', t, Activate(c, who))
  {
  }

  lemma ActivateStep(s: State, t: Tid, c: Conn, who: Origin)
    requires At(s, t, Activate(c, who))
    ensures var s' := Next(s, t);
            && s'.role == s.role && s'.entry == SetActive(s.entry, c) && s'.log.closes == s.log.closes
            && (s'.nextConn, s'.nextTid) == (s.nextConn, s.nextTid) && At(s', t, Fork(c, who))
  {
  }

  lemma PlaceSteps(s: State, t: Tid, c: Conn, who: Origin)
    requires At(s, t, Install(c, who))
    ensures var s', o := Alone(s, t, 3), s.entry.relayConn;
            && s'.role == s.role && s'.entry == SetActive(InstallRelay(s.entry, c), c)
            && (s'.nextConn, s'.nextTid) == (s.nextConn, s.nextTid) && At(s', t, Fork(c, who))
            && s'.log.closes == (if o.Some? then s.log.closes + multiset{o.value} else s.log.closes)
  {
    InstallStep(s, t, c, who);
    CloseOldStep(Next(s, t), t, c, s.entry.relayConn, who);
    ActivateStep(Next(Next(s, t), t), t, c, who);
    Unroll(s, t);
  }

  class PeerEntry {
    const role: Role
    var relayConn: Option<Conn>
    var hasDirectPath: bool
    var retryingConn: bool
    var active: Option<Conn>           // the conn of the mion peer object
    var closes: multiset<Conn>         // the Close calls made
    var conns: nat                     // the connections made so far, which gives them their names

    constructor (role: Role)
      ensures Mirrors(Init(role))
    {
      this.role := role;
      relayConn, hasDirectPath, retryingConn, active, closes, conns := None, false, false, None, multiset{}, 0;
    }

    /** The record is the entry of `s`, and the same conns have been closed. */
    ghost predicate Mirrors(s: State)
      reads this
    {
      role == s.role && closes == s.log.closes && conns == s.nextConn
      && s.entry == Entry(relayConn, hasDirectPath, retryingConn, active)
    }

    method CloseOld(o: Option<Conn>)
      modifies this`closes
      ensures closes == if o.Some? then old(closes) + multiset{o.value} else old(closes)
    {
      if o.Some? {
        closes := closes + multiset{o.value};
      }
    }

    method SetConn(c: Conn, ghost s: State, ghost t: Tid, ghost who: Origin)
      requires Mirrors(s) && At(s, t, Activate(c, who))
      modifies this`active
      ensures active == Some(c) && Mirrors(Next(s, t)) && At(Next(s, t), t, Fork(c, who))
    {
      active := Some(c);
    }

    /** connectPeerWithCtx and handleIncoming after the handshake: install, close what was
        displaced, activate. */
    method PlaceRelay(c: Conn, ghost s: State, ghost t: Tid, ghost who: Origin)
      requires Mirrors(s) && At(s, t, Install(c, who))
      modifies this
      ensures Mirrors(Alone(s, t, 3)) && At(Alone(s, t, 3), t, Fork(c, who)) && Alone(s, t, 3).nextTid == s.nextTid
      ensures closes == if old(relayConn).Some? then old(closes) + multiset{old(relayConn).value} else old(closes)
      ensures relayConn == active == Some(c) && hasDirectPath == old(hasDirectPath) && retryingConn == old(retryingConn)
    {
      PlaceSteps(s, t, c, who);
      var displaced := relayConn;
      relayConn := Some(c);
      CloseOld(displaced);
      active := Some(c);
    }

    /** The test-and-set in front of `go retryConnectPeer`. */
    method ClaimRetry(ghost s: State, ghost t: Tid) returns (won: bool)
      requires Mirrors(s) && (At(s, t, SetupClaim) || At(s, t, FallbackClaim))
      modifies this`retryingConn
      ensures Mirrors(Alone(s, t, 1)) && (if won then At(Alone(s, t, 1), t, RetrySpawn) else t !in Alone(s, t, 1).tasks)
      ensures won == !old(retryingConn) && retryingConn
    {
      Unroll(s, t);
      won := !retryingConn;
      retryingConn := true;
    }

    /** setupRelayPeers for this peer; the conn on record is dropped without being closed. The
        result says whether retryConnectPeer is launched next. */
    method SetupPeer(ghost s: State, ghost t: Tid) returns (launch: bool)
      requires Mirrors(s) && At(s, t, SetupClear)
      modifies this
      ensures var n := if role == Client then 2 else 1;
              Mirrors(Alone(s, t, n)) && (if launch then At(Alone(s, t, n), t, RetrySpawn) else t !in Alone(s, t, n).tasks)
      ensures relayConn == None && closes == old(closes)
    {
      Unroll(s, t);
      relayConn := None;
      ghost var s1 := Next(s, t);
      assert Mirrors(s1);
      if role != Client {
        return false;
      }
      launch := ClaimRetry(s1, t);
    }

    /** tryPromotePath after the dial: promote and activate, or close the conn dialled in vain. */
    method CommitPromotion(c: Conn, ghost s: State, ghost t: Tid) returns (won: bool)
      requires Mirrors(s) && At(s, t, PromoteCommit(c))
      modifies this
      ensures Mirrors(Alone(s, t, 2))
      ensures won == !old(hasDirectPath) && hasDirectPath && active == if won then Some(c) else old(active)
      ensures relayConn == old(relayConn) && retryingConn == old(retryingConn) && conns == old(conns)
      ensures closes == if won then old(closes) else old(closes) + multiset{c}
      ensures if won then At(Alone(s, t, 2), t, Fork(c, Direct)) else t !in Alone(s, t, 2).tasks
    {
      Unroll(s, t);
      ghost var s1 := Next(s, t);
      if hasDirectPath {
        assert Mirrors(s1) && At(s1, t, PromoteAbort(c));
        CloseOld(Some(c));
        return false;
      }
      hasDirectPath := true;
      assert Mirrors(s1) && At(s1, t, Activate(c, Direct));
      SetConn(c, s1, t, Direct);
      won := true;
    }

    /** handleDirectConnect: an inbound connection takes over whether or not there is a path. */
    method HandleDirectConnect(c: Conn, ghost s: State, ghost t: Tid)
      requires Mirrors(s) && At(s, t, InboundCommit(c))
      modifies this
      ensures Mirrors(Alone(s, t, 2)) && At(Alone(s, t, 2), t, Fork(c, Direct))
      ensures hasDirectPath && active == Some(c) && relayConn == old(relayConn)
    {
      Unroll(s, t);
      hasDirectPath := true;
      ghost var s1 := Next(s, t);
      assert Mirrors(s1) && At(s1, t, Activate(c, Direct));
      SetConn(c, s1, t, Direct);
    }

    method ClearConnIf(c: Conn)
      modifies this`active
      ensures active == if old(active) == Some(c) then None else old(active)
    {
      if active == Some(c) {
        active := None;
      }
    }

    /** forwardConnToTUN after its read error. */
    method RelayForwarderExit(c: Conn, ghost s: State, ghost t: Tid)
      requires Mirrors(s) && At(s, t, RelayForward(c))
      modifies this`active
      ensures Mirrors(Alone(s, t, 1)) && t !in Alone(s, t, 1).tasks && active != Some(c)
    {
      Unroll(s, t);
      ClearConnIf(c);
    }

    /** fallbackToRelay, client role: take relayConn and close what it held. */
    method CloseRelay(ghost s: State, ghost t: Tid)
      requires Mirrors(s) && At(s, t, FallbackTake)
      modifies this`relayConn, this`closes
      ensures relayConn == None && Mirrors(Next(Next(s, t), t)) && At(Next(Next(s, t), t), t, FallbackClaim)
    {
      TakeAndClose(s, t);
      var displaced := relayConn;
      relayConn := None;
      CloseOld(displaced);
    }

    /** ... and then claim the retry flag. */
    method FallbackClient(ghost s: State, ghost t: Tid) returns (launch: bool, ghost n: nat)
      requires Mirrors(s) && At(s, t, FallbackTake)
      modifies this
      ensures Mirrors(Alone(s, t, n)) && (if launch then At(Alone(s, t, n), t, RetrySpawn) else t !in Alone(s, t, n).tasks)
      ensures relayConn == None && retryingConn && launch == !old(retryingConn) && hasDirectPath == old(hasDirectPath)
    {
      CloseRelay(s, t);
      launch := ClaimRetry(Next(Next(s, t), t), t);
      Unroll(s, t);
      Unroll(Next(Next(s, t), t), t);
      n := 3;
    }

    /** fallbackToRelay, proxy role, from the section that reads relayConn. */
    method FallbackProxy(ghost s: State, ghost t: Tid) returns (ghost n: nat)
      requires Mirrors(s) && At(s, t, FallbackRead)
      modifies this`active
      ensures Mirrors(Alone(s, t, n)) && t !in Alone(s, t, n).tasks
      ensures active == if relayConn.Some? then relayConn else old(active)
    {
      Unroll(s, t);
      ghost var s1 := Next(s, t);
      assert Mirrors(s1);
      if relayConn.Some? {
        assert At(s1, t, FallbackRestore(relayConn.value));
        active := relayConn;
      }
      n := 2;
    }

    /** The first section of fallbackToRelay. */
    method TryFallback(c: Conn, ghost s: State, ghost t: Tid) returns (won: bool)
      requires Mirrors(s) && At(s, t, DirectFallback(c))
      modifies this`hasDirectPath
      ensures won == old(hasDirectPath) && !hasDirectPath && Mirrors(Next(s, t))
      ensures if won then At(Next(s, t), t, if role == Client then FallbackTake else FallbackRead) else t !in Next(s, t).tasks
    {
      won := hasDirectPath;
      hasDirectPath := false;
    }

    /** fallbackToRelay, in `n` steps of the transition system: only the first caller proceeds. The
        result says whether retryConnectPeer is launched next. */
    method FallbackToRelay(c: Conn, ghost s: State, ghost t: Tid) returns (launch: bool, ghost n: nat)
      requires Mirrors(s) && At(s, t, DirectFallback(c))
      modifies this
      ensures Mirrors(Alone(s, t, n)) && (if launch then At(Alone(s, t, n), t, RetrySpawn) else t !in Alone(s, t, n).tasks)
      ensures !hasDirectPath && (launch <==> role == Client && old(hasDirectPath) && !old(retryingConn))
    {
      var won := TryFallback(c, s, t);
      ghost var s1 := Next(s, t);
      if !won {
        More(s, t, 0);
        launch, n := false, 1;
      } else if role == Client {
        launch, n := FallbackClient(s1, t);
        More(s, t, n);
        n := n + 1;
      } else {
        n := FallbackProxy(s1, t);
        More(s, t, n);
        launch, n := false, n + 1;
      }
    }

    /** forwardDirectConnToTUN after its read error. */
    method DirectForwarderExit(c: Conn, ghost s: State, ghost t: Tid) returns (launch: bool, ghost n: nat)
      requires Mirrors(s) && At(s, t, DirectForward(c))
      modifies this
      ensures Mirrors(Alone(s, t, n)) && (if launch then At(Alone(s, t, n), t, RetrySpawn) else t !in Alone(s, t, n).tasks)
      ensures !hasDirectPath && (launch <==> role == Client && old(hasDirectPath) && !old(retryingConn))
    {
      ClearConnIf(c);
      ghost var s1 := Next(s, t);
      ghost var m;
      launch, m := FallbackToRelay(c, s1, t);
      n := m + 1;
      More(s, t, m);
    }

    /** The whole of tryPromotePath, with a dial that succeeds or not: it dials if and only if no direct
        path is on record, and what it dials becomes the direct path. */
    method TryPromotePath(dialOk: bool, ghost s: State, ghost t: Tid) returns (dialled: bool)
      requires Mirrors(s) && At(s, t, PromoteCheck)
      modifies this
      ensures Mirrors(Tries(s, t, dialOk)) && dialled == (!old(hasDirectPath) && dialOk)
      ensures conns == old(conns) + (if dialled then 1 else 0) && closes == old(closes)
      ensures hasDirectPath == (old(hasDirectPath) || dialled) && active == if dialled then Some(old(conns)) else old(active)
      ensures relayConn == old(relayConn) && retryingConn == old(retryingConn)
      ensures if dialled then At(Tries(s, t, dialOk), t, Fork(old(conns), Direct)) else t !in Tries(s, t, dialOk).tasks
    {
      CheckStep(s, t);
      if hasDirectPath {
        return false;
      }
      dialled := DialAndPromote(dialOk, Next(s, t), t);
    }

    method DialAndPromote(dialOk: bool, ghost s: State, ghost t: Tid) returns (dialled: bool)
      requires Mirrors(s) && At(s, t, PromoteDial) && !hasDirectPath
      modifies this
      ensures Mirrors(DialTries(s, t, dialOk)) && dialled == dialOk
      ensures conns == old(conns) + (if dialled then 1 else 0) && closes == old(closes)
      ensures hasDirectPath == dialled && active == if dialled then Some(old(conns)) else old(active)
      ensures relayConn == old(relayConn) && retryingConn == old(retryingConn)
      ensures if dialled then At(DialTries(s, t, dialOk), t, Fork(old(conns), Direct)) else t !in DialTries(s, t, dialOk).tasks
    {
      DialStep(s, t, dialOk);
      if !dialOk {
        return false;
      }
      var c := conns;
      conns := conns + 1;
      dialled := CommitPromotion(c, Step(s, Go(t, true)), t);
    }

    /** retryConnectPeer, for as long as the world offers rounds: whether the context is alive, and whether
        the attempt to connect succeeds. */
    method RetryConnectPeer(rounds: seq<Round>, ghost s: State, ghost t: Tid) returns (o: RetryOutcome)
      requires Mirrors(s) && At(s, t, RetryCheck) && t < s.nextTid
      modifies this
      ensures Mirrors(Retries(s, t, rounds))
      ensures var pathless := role == Client && !old(hasDirectPath) && old(relayConn) == None;
              var k := Failures(rounds);
              && (o.StillTrying? <==> rounds == [] || (pathless && k == |rounds|))
              && (o.Connected? <==> pathless && k < |rounds| && rounds[k].alive)
              && (o.StillTrying? ==> At(Retries(s, t, rounds), t, RetryCheck))
              && (!o.StillTrying? ==> t !in Retries(s, t, rounds).tasks && !retryingConn)
      ensures hasDirectPath == old(hasDirectPath) && closes == old(closes)
      ensures if o.Connected? then conns == old(conns) + 1 && relayConn == active == Some(old(conns))
              else conns == old(conns) && relayConn == old(relayConn) && active == old(active)
    {
      ghost var cur := s;
      var i := 0;
      while i < |rounds|
        invariant i <= |rounds| && Mirrors(cur) && At(cur, t, RetryCheck) && t < cur.nextTid
        invariant Retries(s, t, rounds) == Retries(cur, t, rounds[i..])
        invariant Failures(rounds) == i + Failures(rounds[i..])
        invariant i > 0 ==> role == Client && !hasDirectPath && relayConn == None
        invariant relayConn == old(relayConn) && hasDirectPath == old(hasDirectPath) && retryingConn == old(retryingConn)
        invariant active == old(active) && closes == old(closes) && conns == old(conns)
      {
        var r := rounds[i];
        ghost var rest := rounds[i..];
        assert rest[0] == r && rest[1..] == rounds[i + 1..];
        RetryCheckStep(cur, t, r.alive);
        if !r.alive || role != Client || hasDirectPath || relayConn.Some? {
          RetryEnds(cur, t, r.alive);
          retryingConn := false;
          return Returned;
        }
        if r.ok {
          RetryPlace(cur, t);
          return Connected;
        }
        RetryDialFails(cur, t);
        i := i + 1;
      }
      o := StillTrying;
    }

    /** The attempt succeeds: the new conn is put in place and the flag released. */
    method RetryPlace(ghost s: State, ghost t: Tid)
      requires Mirrors(s) && At(s, t, RetryCheck) && t < s.nextTid && role == Client && !hasDirectPath && relayConn == None
      modifies this
      ensures Mirrors(Connects(s, t)) && t !in Connects(s, t).tasks && !retryingConn
      ensures relayConn == active == Some(old(conns)) && conns == old(conns) + 1
      ensures hasDirectPath == old(hasDirectPath) && closes == old(closes)
    {
      RetryDialStep(s, t);
      var c := conns;
      conns := conns + 1;
      PlaceAndRelease(c, Dialled(s, t), t);
    }

    method PlaceAndRelease(c: Conn, ghost s: State, ghost t: Tid)
      requires Mirrors(s) && At(s, t, Install(c, Retry)) && t < s.nextTid && relayConn == None
      modifies this
      ensures Mirrors(Placed(s, t)) && t !in Placed(s, t).tasks && !retryingConn
      ensures relayConn == active == Some(c) && conns == old(conns)
      ensures hasDirectPath == old(hasDirectPath) && closes == old(closes)
    {
      PlaceRelay(c, s, t, Retry);
      ReleaseStep(Alone(s, t, 3), t, c);
      retryingConn := false;
    }
  }

  /** What one round of retryConnectPeer meets: whether the context is alive, and whether the relay is up
      and the handshake succeeds. */
  datatype Round = Round(alive: bool, ok: bool)

  datatype RetryOutcome = StillTrying | Connected | Returned

  /** How many rounds fail before the first that does not. */
  function Failures(rounds: seq<Round>): (k: nat)
    ensures k <= |rounds|
  {
    if rounds == [] || !rounds[0].alive || rounds[0].ok then 0 else 1 + Failures(rounds[1..])
  }

  /** The machine's steps of tryPromotePath. */
  function Tries(s: State, t: Tid, dialOk: bool): State
  {
    if s.entry.hasDirectPath then Next(s, t) else DialTries(Next(s, t), t, dialOk)
  }

  function DialTries(s: State, t: Tid, dialOk: bool): State
  {
    var s' := Step(s, Go(t, dialOk));
    if dialOk then Alone(s', t, 2) else s'
  }

  /** The machine's steps of a successful attempt: check, dial, install, close, activate, fork, reset. */
  function Connects(s: State, t: Tid): State { Placed(Dialled(s, t), t) }

  function Placed(s: State, t: Tid): State { Next(Next(Alone(s, t, 3), t), t) }

  function Dialled(s: State, t: Tid): State { Next(Next(s, t), t) }

  /** The machine's steps of retryConnectPeer. */
  function Retries(s: State, t: Tid, rounds: seq<Round>): State
    decreases |rounds|
  {
    if rounds == [] then s
    else
      var s1 := Step(s, Go(t, rounds[0].alive));
      if !(t in s1.tasks && s1.tasks[t].RetryDial?) then Next(s1, t)
      else if rounds[0].ok then Connects(s, t)
      else Retries(Step(s1, Go(t, false)), t, rounds[1..])
  }

  lemma CheckStep(s: State, t: Tid)
    requires At(s, t, PromoteCheck)
    ensures Next(s, t) == if s.entry.hasDirectPath then Exit(s, t) else Goto(s, t, PromoteDial)
  {
  }

  lemma DialStep(s: State, t: Tid, ok: bool)
    requires At(s, t, PromoteDial)
    ensures var s' := Step(s, Go(t, ok));
            && s'.role == s.role && s'.entry == s.entry && s'.log.closes == s.log.closes
            && if ok then At(s', t, PromoteCommit(s.nextConn)) && s'.nextConn == s.nextConn + 1
               else t !in s'.tasks && s'.nextConn == s.nextConn
  {
  }

  lemma RetryCheckStep(s: State, t: Tid, alive: bool)
    requires At(s, t, RetryCheck)
    ensures Step(s, Go(t, alive)) ==
            Goto(s, t, if !alive || s.role != Client || s.entry.hasDirectPath || s.entry.relayConn.Some? then RetryReset else RetryDial)
  {
  }

  // Cancelled, or a path is on record.
  lemma RetryEnds(s: State, t: Tid, alive: bool)
    requires At(s, t, RetryCheck)
    requires !alive || s.role != Client || s.entry.hasDirectPath || s.entry.relayConn.Some?
    ensures var s' := Next(Step(s, Go(t, alive)), t);
            && s'.role == s.role && s'.entry == ReleaseRetry(s.entry) && s'.log.closes == s.log.closes && s'.nextConn == s.nextConn
            && t !in s'.tasks
  {
  }

  // The attempt fails: back to the check.
  lemma RetryDialFails(s: State, t: Tid)
    requires At(s, t, RetryCheck) && s.role == Client && !s.entry.hasDirectPath && s.entry.relayConn == None
    ensures Step(Next(s, t), Go(t, false)) == s
  {
    assert s.tasks[t := RetryDial][t := RetryCheck] == s.tasks;
  }

  // The attempt succeeds.
  lemma RetryDialStep(s: State, t: Tid)
    requires At(s, t, RetryCheck) && s.role == Client && !s.entry.hasDirectPath && s.entry.relayConn == None
    ensures var s' := Dialled(s, t);
            && s'.role == s.role && s'.entry == s.entry && s'.log.closes == s.log.closes && s'.nextConn == s.nextConn + 1
            && At(s', t, Install(s.nextConn, Retry)) && s'.nextTid == s.nextTid
  {
    RetryCheckStep(s, t, true);
  }

  lemma ReleaseStep(s: State, t: Tid, c: Conn)
    requires At(s, t, Fork(c, Retry)) && t < s.nextTid
    ensures var s' := Next(Next(s, t), t);
            && s'.role == s.role && s'.entry == ReleaseRetry(s.entry) && s'.log.closes == s.log.closes && s'.nextConn == s.nextConn
            && t !in s'.tasks
  {
  }
}

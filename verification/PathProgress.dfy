/** That the goroutines of path switching get on: what each of them achieves, from every state, when it
    takes its steps without interruption, and what a failed dial or handshake leaves behind. */
module PathProgress {
  import opened Basics
  import opened PeerEntries
  import opened PathSwitch
  import opened PathOwnership
  import opened PathFindings

  // -------------------------------------------------------------- promotion

  /** The first look of tryPromotePath: it goes on to dial if and only if no direct path is on record, and
      otherwise ends without a trace; a failed dial ends it without a trace as well. */
  lemma PromotionStarts(s: State, t: Tid, ok: bool)
    requires t in s.tasks && s.tasks[t].PromoteCheck?
    ensures var s' := Step(s, Go(t, ok));
            && (t in s'.tasks && s'.tasks[t].PromoteDial? <==> !s.entry.hasDirectPath)
            && s' == s.(tasks := if s.entry.hasDirectPath then s.tasks - {t} else s.tasks[t := PromoteDial])
            && (!s.entry.hasDirectPath ==> Step(s', Go(t, false)) == s.(tasks := s.tasks - {t}))
  {
    if !s.entry.hasDirectPath {
      assert s.tasks[t := PromoteDial] - {t} == s.tasks - {t};
    }
  }

  // The dial succeeds.
  lemma Dials(s: State, t: Tid) returns (s': State)
    requires FreshTids(s) && t in s.tasks && s.tasks[t].PromoteDial?
    ensures Leads(s, s') && s'.role == s.role && s'.entry == s.entry && s'.nextTid == s.nextTid && s'.nextConn == s.nextConn + 1
    ensures s'.tasks == s.tasks[t := PromoteCommit(s.nextConn)]
    ensures s'.log.dialled == s.log.dialled + {s.nextConn} && s'.log.promoted == s.log.promoted
  {
    s' := Move(s, t);
  }

  lemma Commits(s: State, t: Tid, c: Conn) returns (s': State)
    requires t in s.tasks && s.tasks[t] == PromoteCommit(c) && !s.entry.hasDirectPath
    ensures Leads(s, s') && s'.role == s.role && s'.entry == s.entry.(hasDirectPath := true)
    ensures s'.tasks == s.tasks[t := Activate(c, Direct)] && (s'.nextTid, s'.nextConn) == (s.nextTid, s.nextConn)
    ensures s'.log.dialled == s.log.dialled && s'.log.promoted == s.log.promoted + {c}
  {
    s' := Move(s, t);
  }

  lemma Activates(s: State, t: Tid, c: Conn) returns (s': State)
    requires t in s.tasks && s.tasks[t] == Activate(c, Direct)
    ensures Leads(s, s') && s'.role == s.role && s'.entry == s.entry.(active := Some(c))
    ensures s'.tasks == s.tasks[t := Fork(c, Direct)] && (s'.nextTid, s'.nextConn) == (s.nextTid, s.nextConn)
    ensures s'.log.dialled == s.log.dialled && s'.log.promoted == s.log.promoted
  {
    s' := Move(s, t);
  }

  lemma Forks(s: State, t: Tid, c: Conn) returns (s': State)
    requires FreshTids(s) && t in s.tasks && s.tasks[t] == Fork(c, Direct)
    ensures Leads(s, s') && s'.role == s.role && s'.entry == s.entry
    ensures s'.tasks == (s.tasks - {t})[s.nextTid := DirectForward(c)] && s'.nextConn == s.nextConn
    ensures s'.log.dialled == s.log.dialled && s'.log.promoted == s.log.promoted
  {
    s' := Move(s, t);
  }

  // From a goroutine at its dial.
  lemma PromotesFrom(s: State, t: Tid) returns (s': State)
    requires FreshTids(s) && t in s.tasks && s.tasks[t].PromoteDial? && !s.entry.hasDirectPath
    ensures Leads(s, s') && s'.entry == s.entry.(hasDirectPath := true, active := Some(s.nextConn))
    ensures s'.tasks == (s.tasks - {t})[s.nextTid := DirectForward(s.nextConn)] && s'.nextConn == s.nextConn + 1
    ensures s'.log.dialled == s.log.dialled + {s.nextConn} && s'.log.promoted == s.log.promoted + {s.nextConn}
  {
    var c := s.nextConn;
    var s1 := Dials(s, t);
    var s2 := Commits(s1, t, c);
    Then(s, s1, s2);
    var s3 := Activates(s2, t, c);
    Then(s, s2, s3);
    s' := Forks(s3, t, c);
    Then(s, s3, s');
    assert s3.tasks - {t} == s.tasks - {t};
  }

  /** A validated candidate, from every client state without a direct path: there is a continuation in
      which one conn is dialled and promoted, is active with its forwarder running, and is on record;
      nothing else changes. */
  lemma {:induction false} CandidatePromotes(s: State)
    requires FreshTids(s) && s.role == Client && !s.entry.hasDirectPath
    ensures exists actions ::
              var s', c := Follow(s, [Candidate] + actions), s.nextConn;
              && s'.entry == s.entry.(hasDirectPath := true, active := Some(c)) && s'.nextConn == c + 1
              && s'.tasks == s.tasks[s.nextTid + 1 := DirectForward(c)]
              && s'.log.dialled == s.log.dialled + {c} && s'.log.promoted == s.log.promoted + {c}
  {
    var t := s.nextTid;
    var s0 := Step(s, Candidate);
    PromotionStarts(s0, t, true);
    var s1 := Move(s0, t);
    var s2 := PromotesFrom(s1, t);
    Then(s0, s1, s2);
    assert s0.tasks[t := PromoteDial] - {t} == s.tasks;
    var p :| s2 == Follow(s0, p);
    FollowConcat(s, [Candidate], p);
    assert [Candidate][..0] == [] && Follow(s, [Candidate]) == Step(Follow(s, []), Candidate);
  }

  /** With a direct path on record, or in proxy role, a candidate leads to no dial. */
  lemma CandidateIdle(s: State, ok: bool)
    requires FreshTids(s) && (s.role == Proxy || s.entry.hasDirectPath)
    ensures s.role == Proxy ==> Step(s, Candidate) == s
    ensures s.role == Client ==> Step(Step(s, Candidate), Go(s.nextTid, ok)) == s.(nextTid := s.nextTid + 1)
  {
    if s.role == Client {
      var s1 := Step(s, Candidate);
      PromotionStarts(s1, s.nextTid, ok);
      assert s1.tasks - {s.nextTid} == s.tasks;
    }
  }

  // ------------------------------------------------------------------ retry

  function FailedRounds(t: Tid, n: nat): seq<Action>
  {
    if n == 0 then [] else FailedRounds(t, n - 1) + [Go(t, true)] + [Go(t, false)]
  }

  lemma FailedRound(s: State, t: Tid)
    requires s.role == Client && t in s.tasks && s.tasks[t].RetryCheck? && !s.entry.hasDirectPath && s.entry.relayConn == None
    ensures Step(Step(s, Go(t, true)), Go(t, false)) == s
  {
    assert s.tasks[t := RetryDial][t := RetryCheck] == s.tasks;
  }

  /** retryConnectPeer without a path: any number of failed attempts leave everything as it is, with the
      goroutine back at its check. */
  lemma {:induction false} FailuresLeaveNothing(s: State, t: Tid, n: nat)
    requires s.role == Client && t in s.tasks && s.tasks[t].RetryCheck? && !s.entry.hasDirectPath && s.entry.relayConn == None
    ensures Follow(s, FailedRounds(t, n)) == s
    decreases n
  {
    if n == 0 {
    } else {
      FailuresLeaveNothing(s, t, n - 1);
      TwoMore(s, FailedRounds(t, n - 1), Go(t, true), Go(t, false));
      FailedRound(s, t);
    }
  }

  lemma {:induction false} TwoMore(s: State, init: seq<Action>, a: Action, b: Action)
    ensures Follow(s, init + [a] + [b]) == Step(Step(Follow(s, init), a), b)
  {
    var p := init + [a];
    assert p[..|p| - 1] == init && (p + [b])[..|p|] == p;
  }

  // The deferred reset.
  lemma Resets(s: State, t: Tid) returns (s': State)
    requires t in s.tasks && s.tasks[t].RetryReset?
    ensures Leads(s, s') && s'.entry == s.entry.(retryingConn := false) && s'.tasks == s.tasks - {t} && s'.nextConn == s.nextConn
  {
    s' := Move(s, t);
  }

  /** retryConnectPeer, from every client state without a path and after any number of failed attempts: a
      successful one ends with one new conn on record, active and forwarded, and with the flag released
      and the goroutine gone. */
  lemma {:induction false} RetryConnects(s: State, t: Tid, n: nat)
    requires FreshTids(s) && s.role == Client && t in s.tasks && s.tasks[t].RetryCheck?
    requires !s.entry.hasDirectPath && s.entry.relayConn == None
    ensures exists actions ::
              var s', c := Follow(s, FailedRounds(t, n) + actions), s.nextConn;
              && s'.entry == s.entry.(relayConn := Some(c), active := Some(c), retryingConn := false)
              && s'.tasks == (s.tasks - {t})[s.nextTid := RelayForward(c)]
  {
    FailuresLeaveNothing(s, t, n);
    var s1 := RetrySucceeds(s, t);
    var s2 := Resets(s1, t);
    Then(s, s1, s2);
    assert s1.tasks - {t} == (s.tasks - {t})[s.nextTid := RelayForward(s.nextConn)];
    var p :| s2 == Follow(s, p);
    FollowConcat(s, FailedRounds(t, n), p);
  }

  /** retryConnectPeer that is cancelled, or finds a path on record, releases the flag and ends, and
      changes nothing else. */
  lemma RetryReturns(s: State, t: Tid, ok: bool, ok': bool)
    requires t in s.tasks && s.tasks[t].RetryCheck?
    requires !ok || s.entry.hasDirectPath || s.entry.relayConn.Some?
    ensures Step(Step(s, Go(t, ok)), Go(t, ok')) ==
            s.(entry := s.entry.(retryingConn := false), tasks := s.tasks - {t}, log := s.log.(retrier := None))
  {
    assert s.tasks[t := RetryReset] - {t} == s.tasks - {t};
  }

  // --------------------------------------------------------------- incoming

  /** An incoming session whose handshake fails leaves no trace. */
  lemma FailedHandshake(s: State)
    requires FreshTids(s)
    ensures Step(Step(s, IncomingSession), Go(s.nextTid, false)) == s.(nextTid := s.nextTid + 1)
  {
    assert s.tasks[s.nextTid := Handshake] - {s.nextTid} == s.tasks;
  }

  // ------------------------------------------------------------- proxy role

  /** Nobody is in tryPromotePath and nothing has been dialled. */
  ghost predicate NoDials(s: State)
  {
    s.role == Proxy && s.log.dialled == {} && forall t :: t in s.tasks ==> !s.tasks[t].InPromote() || s.tasks[t].InboundCommit?
  }

  lemma MoverDialsNot(s: State, t: Tid, k: Task, ok: bool)
    requires FreshTids(s) && t in s.tasks && s.tasks[t] == k && (k.InPromote() ==> k.InboundCommit?)
    ensures var s' := StepTask(s, t, k, ok);
            && s'.role == s.role && s'.log.dialled == s.log.dialled && (t in s'.tasks ==> !s'.tasks[t].InPromote())
  {
    if k.InSetup() || k.InRetry() || k.Handshake? {
      SeekersDialNot(s, t, k, ok);
    } else if k.InPlace() || k.InPromote() {
      PlacersDialNot(s, t, k, ok);
    }
  }

  lemma SeekersDialNot(s: State, t: Tid, k: Task, ok: bool)
    requires FreshTids(s) && t in s.tasks && s.tasks[t] == k && (k.InSetup() || k.InRetry() || k.Handshake?)
    ensures var s' := StepTask(s, t, k, ok);
            && s'.role == s.role && s'.log.dialled == s.log.dialled && (t in s'.tasks ==> !s'.tasks[t].InPromote())
  {
  }

  lemma PlacersDialNot(s: State, t: Tid, k: Task, ok: bool)
    requires FreshTids(s) && t in s.tasks && s.tasks[t] == k && (k.InPlace() || k.InboundCommit?)
    ensures var s' := StepTask(s, t, k, ok);
            && s'.role == s.role && s'.log.dialled == s.log.dialled && (t in s'.tasks ==> !s'.tasks[t].InPromote())
  {
  }

  lemma StepDialsNot(s: State, a: Action)
    requires FreshTids(s) && NoDials(s)
    ensures NoDials(Step(s, a))
  {
    if a.Go? && a.t in s.tasks { MoverDialsNot(s, a.t, s.tasks[a.t], a.ok); }
    forall t | t in Step(s, a).tasks ensures !Step(s, a).tasks[t].InPromote() || Step(s, a).tasks[t].InboundCommit? {
      if !(a.Go? && a.t == t && t in s.tasks) { OtherDialsNot(s, a, t); }
    }
  }

  lemma OtherDialsNot(s: State, a: Action, t: Tid)
    requires FreshTids(s) && NoDials(s) && t in Step(s, a).tasks && !(a.Go? && a.t == t && t in s.tasks)
    ensures !Step(s, a).tasks[t].InPromote() || Step(s, a).tasks[t].InboundCommit?
  {
    if a.Go? && a.t == t {
    } else {
      OtherTask(s, a, t);
    }
  }

  /** In proxy role, over every run, no direct conn is ever dialled. */
  lemma {:induction false} ProxyNeverDials(actions: seq<Action>)
    ensures NoDials(Run(Proxy, actions))
    decreases |actions|
  {
    if actions == [] {
    } else {
      var init := actions[..|actions| - 1];
      RunKeepsOwn(Proxy, init);
      ProxyNeverDials(init);
      StepDialsNot(Run(Proxy, init), actions[|actions| - 1]);
    }
  }
}

/** When a client is left without a path and without anybody looking for one. */
module PathCoverage {
  import opened Basics
  import opened PathSwitch
  import opened PathOwnership
  import opened PathDirect

  /** Bound to claim the retry flag, or retrying. */
  predicate Seeks(k: Task)
  {
    k.SetupClear? || k.SetupClaim? || k.RetrySpawn? || k.RetryCheck? || k.RetryDial?
    || k.FallbackTake? || k.FallbackClose? || k.FallbackClaim?
  }

  /** Has a conn in hand that is on its way to SetConn. */
  predicate Places(k: Task)
  {
    k.Install? || k.CloseOld? || k.Activate? || k.PromoteCommit? || k.InboundCommit?
  }

  predicate Bound(k: Task) { Seeks(k) || Places(k) }

  /** The client has a live path or somebody is about to provide one: an active conn (which has its
      forwarder, by PathActive.ActiveIsForwarded), an attended direct path, or a goroutine that is
      putting a conn in place or seeking one. A conn that is merely on record in relayConn does
      not count. */
  ghost predicate Covered(s: State)
  {
    s.entry.active.Some? || (s.entry.hasDirectPath && Attended(s)) || exists t :: t in s.tasks && Bound(s.tasks[t])
  }

  /** The claim of the retry flag finds it set. */
  predicate ClaimRefused(s: State, k: Task) { (k.SetupClaim? || k.FallbackClaim?) && s.entry.retryingConn }

  /** The retry goroutine is cancelled, or takes the conn on record for a live one. */
  predicate RetryReturns(s: State, k: Task, ok: bool) { k.RetryCheck? && (!ok || s.entry.relayConn.Some?) }

  /** A forwarder clears the active conn. */
  predicate Clears(s: State, k: Task) { (k.RelayForward? || k.DirectForward?) && s.entry.active == Some(k.c) }

  /** With no direct path recorded and nobody else bound to provide a path: the last seeker's claim
      is refused, or the last seeker returns, while nothing is active; or a forwarder clears the
      active conn. */
  ghost predicate GivesUp(s: State, a: Action)
  {
    && a.Go? && a.t in s.tasks
    && !s.entry.hasDirectPath
    && (forall u :: u in s.tasks && u != a.t ==> !Bound(s.tasks[u]))
    && var k := s.tasks[a.t];
       || (s.entry.active == None && (ClaimRefused(s, k) || RetryReturns(s, k, a.ok)))
       || Clears(s, k)
  }

  lemma StillCovered(s: State, t: Tid)
    requires t in s.tasks && Bound(s.tasks[t])
    ensures Covered(s)
  {
  }

  // A goroutine in search of a path stays bound, unless it is turned away.
  lemma SeekerStays(s: State, t: Tid, k: Task, ok: bool)
    requires FreshTids(s) && s.role == Client && t in s.tasks && s.tasks[t] == k && Seeks(k)
    requires !ClaimRefused(s, k) && !RetryReturns(s, k, ok) && !s.entry.hasDirectPath
    ensures Covered(StepTask(s, t, k, ok))
  {
    var s' := StepTask(s, t, k, ok);
    if k.RetrySpawn? {
      StillCovered(s', s.nextTid);
    } else {
      StillCovered(s', t);
    }
  }

  // A goroutine with a conn in hand brings it to SetConn, or finds a direct path.
  lemma PlacerStays(s: State, t: Tid, k: Task, ok: bool)
    requires t in s.tasks && s.tasks[t] == k && Places(k) && !s.entry.hasDirectPath
    ensures Covered(StepTask(s, t, k, ok))
  {
    var s' := StepTask(s, t, k, ok);
    if !k.Activate? { StillCovered(s', t); }
  }

  // What an active conn and a recorded direct path survive.
  lemma PathsStay(s: State, t: Tid, k: Task, ok: bool)
    requires t in s.tasks && s.tasks[t] == k
    ensures s.entry.active.Some? && !Clears(s, k) ==> StepTask(s, t, k, ok).entry.active.Some?
    ensures s.entry.hasDirectPath && !k.DirectFallback? ==> StepTask(s, t, k, ok).entry.hasDirectPath
  {
  }

  // A recorded direct path stays on record, or its forwarder begins to seek.
  lemma DirectKeeps(s: State, t: Tid, k: Task, ok: bool)
    requires s.role == Client && t in s.tasks && s.tasks[t] == k && s.entry.hasDirectPath
    requires DirectInv(StepTask(s, t, k, ok))
    ensures Covered(StepTask(s, t, k, ok))
  {
    PathsStay(s, t, k, ok);
    if k.DirectFallback? { StillCovered(StepTask(s, t, k, ok), t); }
  }

  lemma MoverKeeps(s: State, t: Tid, k: Task, ok: bool)
    requires FreshTids(s) && s.role == Client && t in s.tasks && s.tasks[t] == k
    requires Covered(s) && !GivesUp(s, Go(t, ok)) && !s.entry.hasDirectPath
    requires forall u :: u in s.tasks && u != t ==> !Bound(s.tasks[u])
    ensures Covered(StepTask(s, t, k, ok))
  {
    if Seeks(k) && !ClaimRefused(s, k) && !RetryReturns(s, k, ok) {
      SeekerStays(s, t, k, ok);
    } else if Places(k) {
      PlacerStays(s, t, k, ok);
    } else {
      PathsStay(s, t, k, ok);
    }
  }

  lemma CoverageKept(s: State, a: Action)
    requires OwnInv(s) && DirectInv(s) && s.role == Client && Covered(s) && !GivesUp(s, a)
    ensures Covered(Step(s, a))
  {
    StepKeepsDirect(s, a);
    if other :| other in s.tasks && Bound(s.tasks[other]) && !(a.Go? && a.t == other) {
      Bystander(s, a, other);
      StillCovered(Step(s, a), other);
    } else if a.Go? && a.t in s.tasks {
      if s.entry.hasDirectPath {
        DirectKeeps(s, a.t, s.tasks[a.t], a.ok);
      } else {
        MoverKeeps(s, a.t, s.tasks[a.t], a.ok);
      }
    }
  }

  lemma CoverageLost(s: State, a: Action)
    requires OwnInv(s) && s.role == Client && GivesUp(s, a)
    ensures !Covered(Step(s, a))
  {
    LoserGone(s, a.t, s.tasks[a.t], a.ok);
    forall u | u in Step(s, a).tasks ensures !Bound(Step(s, a).tasks[u]) {
      if u != a.t { OtherStays(s, a, u); }
    }
  }

  // The goroutine that gives up: what it leaves behind.
  lemma LoserGone(s: State, t: Tid, k: Task, ok: bool)
    requires FreshTids(s) && s.role == Client && t in s.tasks && s.tasks[t] == k
    requires ClaimRefused(s, k) || (k.RetryCheck? && (!ok || s.entry.relayConn.Some? || s.entry.hasDirectPath)) || Clears(s, k)
             || (k.PromoteCommit? && s.entry.hasDirectPath)
    ensures var s' := StepTask(s, t, k, ok);
            && (t in s'.tasks ==> !Bound(s'.tasks[t])) && s.nextTid !in s'.tasks
            && (t in s'.tasks && s'.tasks[t].DirectFallback? ==> k.DirectForward?)
            && s'.entry == if Clears(s, k) then s.entry.(active := None) else s.entry
  {
  }

  // Nobody else is there afterwards who was not there before.
  lemma OtherStays(s: State, a: Action, u: Tid)
    requires FreshTids(s) && u in Step(s, a).tasks && a.Go? && a.t != u && s.nextTid !in Step(s, a).tasks
    ensures u in s.tasks && Step(s, a).tasks[u] == s.tasks[u]
  {
    OtherTask(s, a, u);
  }

  /** Exactly when a client that has a live path, or somebody providing one, is left with neither:
      nobody else is bound to provide a path, no direct path is recorded, and either the last
      claim is refused, or the last retry returns, or the active conn is cleared. */
  lemma CoverageStep(s: State, a: Action)
    requires OwnInv(s) && DirectInv(s) && s.role == Client && Covered(s)
    ensures Covered(Step(s, a)) <==> !GivesUp(s, a)
  {
    if GivesUp(s, a) { CoverageLost(s, a); } else { CoverageKept(s, a); }
  }

  /** Over every run: a client that was covered after `i` steps and is not covered now has taken
      such a step in between. */
  lemma {:induction false} CoverageLossTraced(actions: seq<Action>, i: nat)
    requires i <= |actions| && Covered(Run(Client, actions[..i]))
    ensures Covered(Run(Client, actions))
            || exists j :: i <= j < |actions| && GivesUp(Run(Client, actions[..j]), actions[j])
    decreases |actions|
  {
    if i == |actions| {
      assert actions[..i] == actions;
    } else {
      var n := |actions| - 1;
      var init := actions[..n];
      assert init[..i] == actions[..i];
      CoverageLossTraced(init, i);
      if Covered(Run(Client, init)) {
        RunKeepsOwn(Client, init);
        NeverStranded(Client, init);
        CoverageStep(Run(Client, init), actions[n]);
      } else {
        var j :| i <= j < |init| && GivesUp(Run(Client, init[..j]), init[j]);
        assert init[..j] == actions[..j] && init[j] == actions[j];
      }
    }
  }

  // ------------------------------------------------------- without the record
  //
  // A direct path on record, with its forwarder reading, does not make it the active conn.

  /** About to provide an active conn: bound to, or on its way into a fallback that will proceed. */
  predicate Provides(s: State, k: Task) { Bound(k) || (k.DirectFallback? && s.entry.hasDirectPath) }

  /** The client can send, or somebody is about to make it so. */
  ghost predicate Usable(s: State)
  {
    s.entry.active.Some? || exists t :: t in s.tasks && Provides(s, s.tasks[t])
  }

  /** A seeker or a promoter that finds a path on record and leaves. */
  predicate Trusts(s: State, k: Task, ok: bool)
  {
    (k.RetryCheck? && (!ok || s.entry.relayConn.Some? || s.entry.hasDirectPath)) || (k.PromoteCommit? && s.entry.hasDirectPath)
  }

  /** With nobody else about to provide an active conn: the last claim is refused, or the last
      provider trusts a path on record, while nothing is active; or the active conn is cleared,
      other than by a direct forwarder whose fallback will proceed. */
  ghost predicate GoesSilent(s: State, a: Action)
  {
    && a.Go? && a.t in s.tasks
    && (forall u :: u in s.tasks && u != a.t ==> !Provides(s, s.tasks[u]))
    && var k := s.tasks[a.t];
       || (s.entry.active == None && (ClaimRefused(s, k) || Trusts(s, k, a.ok)))
       || (Clears(s, k) && !(k.DirectForward? && s.entry.hasDirectPath))
  }

  lemma StillUsable(s: State, t: Tid)
    requires t in s.tasks && Provides(s, s.tasks[t])
    ensures Usable(s)
  {
  }

  lemma SeekerProvides(s: State, t: Tid, k: Task, ok: bool)
    requires FreshTids(s) && s.role == Client && t in s.tasks && s.tasks[t] == k && Seeks(k)
    requires !ClaimRefused(s, k) && !Trusts(s, k, ok)
    ensures Usable(StepTask(s, t, k, ok))
  {
    StillUsable(StepTask(s, t, k, ok), if k.RetrySpawn? then s.nextTid else t);
  }

  lemma PlacerProvides(s: State, t: Tid, k: Task, ok: bool)
    requires t in s.tasks && s.tasks[t] == k && Places(k) && !Trusts(s, k, ok)
    ensures Usable(StepTask(s, t, k, ok))
  {
    if !k.Activate? { StillUsable(StepTask(s, t, k, ok), t); }
  }

  lemma FallbackProvides(s: State, t: Tid, k: Task, ok: bool)
    requires s.role == Client && t in s.tasks && s.tasks[t] == k && s.entry.hasDirectPath
    requires k.DirectFallback? || k.DirectForward?
    ensures Usable(StepTask(s, t, k, ok))
  {
    StillUsable(StepTask(s, t, k, ok), t);
  }

  lemma MoverStaysUsable(s: State, t: Tid, k: Task, ok: bool)
    requires FreshTids(s) && s.role == Client && t in s.tasks && s.tasks[t] == k
    requires Usable(s) && !GoesSilent(s, Go(t, ok))
    requires forall u :: u in s.tasks && u != t ==> !Provides(s, s.tasks[u])
    ensures Usable(StepTask(s, t, k, ok))
  {
    PathsStay(s, t, k, ok);
    if (k.DirectFallback? || k.DirectForward?) && s.entry.hasDirectPath {
      FallbackProvides(s, t, k, ok);
    } else if Seeks(k) && !ClaimRefused(s, k) && !Trusts(s, k, ok) {
      SeekerProvides(s, t, k, ok);
    } else if Places(k) && !Trusts(s, k, ok) {
      PlacerProvides(s, t, k, ok);
    }
  }

  // Another provider stays one, or the mover becomes one in its place.
  lemma OtherProvides(s: State, a: Action, u: Tid)
    requires OwnInv(s) && s.role == Client && u in s.tasks && Provides(s, s.tasks[u]) && !(a.Go? && a.t == u)
    ensures Usable(Step(s, a))
  {
    Bystander(s, a, u);
    if a.Go? && a.t in s.tasks {
      var t, k := a.t, s.tasks[a.t];
      PathsStay(s, t, k, a.ok);
      if k.DirectFallback? && s.entry.hasDirectPath {
        FallbackProvides(s, t, k, a.ok);
      } else {
        StillUsable(Step(s, a), u);
      }
    } else {
      StillUsable(Step(s, a), u);
    }
  }

  lemma UsabilityLost(s: State, a: Action)
    requires OwnInv(s) && s.role == Client && GoesSilent(s, a)
    ensures !Usable(Step(s, a))
  {
    LoserGone(s, a.t, s.tasks[a.t], a.ok);
    forall u | u in Step(s, a).tasks ensures !Provides(Step(s, a), Step(s, a).tasks[u]) {
      if u != a.t { OtherStays(s, a, u); }
    }
  }

  /** Exactly when a client that has an active conn, or somebody about to provide one, is left with
      neither, whatever paths are on record. */
  lemma UsableStep(s: State, a: Action)
    requires OwnInv(s) && s.role == Client && Usable(s)
    ensures Usable(Step(s, a)) <==> !GoesSilent(s, a)
  {
    if GoesSilent(s, a) {
      UsabilityLost(s, a);
    } else if other :| other in s.tasks && Provides(s, s.tasks[other]) && !(a.Go? && a.t == other) {
      OtherProvides(s, a, other);
    } else if a.Go? && a.t in s.tasks {
      MoverStaysUsable(s, a.t, s.tasks[a.t], a.ok);
    }
  }

  /** Over every run: a client that was usable after `i` steps and is not now has taken such a step. */
  lemma {:induction false} UsableLossTraced(actions: seq<Action>, i: nat)
    requires i <= |actions| && Usable(Run(Client, actions[..i]))
    ensures Usable(Run(Client, actions))
            || exists j :: i <= j < |actions| && GoesSilent(Run(Client, actions[..j]), actions[j])
    decreases |actions|
  {
    if i == |actions| {
      assert actions[..i] == actions;
    } else {
      var n := |actions| - 1;
      var init := actions[..n];
      assert init[..i] == actions[..i];
      UsableLossTraced(init, i);
      if Usable(Run(Client, init)) {
        RunKeepsOwn(Client, init);
        UsableStep(Run(Client, init), actions[n]);
      } else {
        var j :| i <= j < |init| && GoesSilent(Run(Client, init[..j]), init[j]);
        assert init[..j] == actions[..j] && init[j] == actions[j];
      }
    }
  }
}

/** The retry flag: at every moment it counts the retry goroutines exactly. */
module PathRetry {
  import opened Basics
  import opened PeerEntries
  import opened PathSwitch
  import opened PathOwnership

  /** From the section that claims the flag to the deferred reset. */
  predicate IsRetry(k: Task)
  {
    k.RetrySpawn? || k.InRetry() || (k.InPlace() && k.who == Retry)
  }

  /** Steps only the client role takes on the way to a claim. */
  predicate MayClaim(k: Task)
  {
    k.SetupClaim? || k.FallbackTake? || k.FallbackClose? || k.FallbackClaim?
  }

  ghost predicate RetryInv(s: State)
  {
    && (s.entry.retryingConn <==> s.log.retrier.Some?)
    && (s.log.retrier.Some? ==> s.log.retrier.value in s.tasks && IsRetry(s.tasks[s.log.retrier.value]))
    && (forall t :: t in s.tasks && IsRetry(s.tasks[t]) ==> s.log.retrier == Some(t))
    && (s.role == Proxy ==> s.log.retrier == None && forall t :: t in s.tasks ==> !MayClaim(s.tasks[t]))
  }

  // The step of `t` leaves the flag and its owner alone, and `t` was and is no retry goroutine and
  // does not come to claim the flag.
  lemma RetryFrame(s: State, s': State, t: Tid)
    requires RetryInv(s) && t in s.tasks && !IsRetry(s.tasks[t])
    requires s'.role == s.role && s'.entry.retryingConn == s.entry.retryingConn && s'.log.retrier == s.log.retrier
    requires forall u :: u in s.tasks && u != t ==> u in s'.tasks && s'.tasks[u] == s.tasks[u]
    requires forall u :: u in s'.tasks ==>
               (u in s.tasks && s'.tasks[u] == s.tasks[u])
               || (!IsRetry(s'.tasks[u]) && (MayClaim(s'.tasks[u]) ==> s.role == Client))
    ensures RetryInv(s')
  {
  }

  lemma SetupKeepsRetry(s: State, t: Tid, k: Task)
    requires OwnInv(s) && RetryInv(s) && t in s.tasks && s.tasks[t] == k && k.InSetup()
    ensures RetryInv(StepSetup(s, t, k))
  {
  }

  lemma RetryKeepsRetry(s: State, t: Tid, k: Task, ok: bool)
    requires OwnInv(s) && RetryInv(s) && t in s.tasks && s.tasks[t] == k && k.InRetry()
    ensures RetryInv(StepRetry(s, t, k, ok))
  {
  }

  lemma PlaceKeepsRetry(s: State, t: Tid, k: Task)
    requires OwnInv(s) && RetryInv(s) && t in s.tasks && s.tasks[t] == k && k.InPlace()
    ensures RetryInv(StepPlace(s, t, k))
  {
    if k.who != Retry {
      RetryFrame(s, StepPlace(s, t, k), t);
    } else if k.Fork? {
      ForkKeepsRetry(s, t, k.c);
    } else {
      PlacingKeepsRetry(s, t, k);
    }
  }

  lemma ForkKeepsRetry(s: State, t: Tid, c: Conn)
    requires FreshTids(s) && RetryInv(s) && t in s.tasks && s.tasks[t] == Fork(c, Retry)
    ensures RetryInv(StepPlace(s, t, Fork(c, Retry)))
  {
  }

  lemma PlacingKeepsRetry(s: State, t: Tid, k: Task)
    requires RetryInv(s) && t in s.tasks && s.tasks[t] == k && k.InPlace() && !k.Fork? && k.who == Retry
    ensures RetryInv(StepPlace(s, t, k))
  {
  }

  lemma PromoteKeepsRetry(s: State, t: Tid, k: Task, ok: bool)
    requires OwnInv(s) && RetryInv(s) && t in s.tasks && s.tasks[t] == k && k.InPromote()
    ensures RetryInv(StepPromote(s, t, k, ok))
  {
    PromoteFrames(s, t, k, ok);
    RetryFrame(s, StepPromote(s, t, k, ok), t);
  }

  lemma PromoteFrames(s: State, t: Tid, k: Task, ok: bool)
    requires t in s.tasks && s.tasks[t] == k && k.InPromote()
    ensures var s' := StepPromote(s, t, k, ok);
            && s'.role == s.role && s'.entry.retryingConn == s.entry.retryingConn && s'.log.retrier == s.log.retrier
            && (s'.tasks == s.tasks - {t} || (t in s'.tasks && s'.tasks == s.tasks[t := s'.tasks[t]]))
            && (t in s'.tasks ==> !IsRetry(s'.tasks[t]) && !MayClaim(s'.tasks[t]))
  {
  }

  lemma ForwardKeepsRetry(s: State, t: Tid, k: Task)
    requires OwnInv(s) && RetryInv(s) && t in s.tasks && s.tasks[t] == k && k.InForward()
    ensures RetryInv(StepForward(s, t, k))
  {
    ForwardFrames(s, t, k);
    RetryFrame(s, StepForward(s, t, k), t);
  }

  lemma ForwardFrames(s: State, t: Tid, k: Task)
    requires t in s.tasks && s.tasks[t] == k && k.InForward()
    ensures var s' := StepForward(s, t, k);
            && s'.role == s.role && s'.entry.retryingConn == s.entry.retryingConn && s'.log.retrier == s.log.retrier
            && (s'.tasks == s.tasks - {t} || (t in s'.tasks && s'.tasks == s.tasks[t := s'.tasks[t]]))
            && (t in s'.tasks ==> !IsRetry(s'.tasks[t]) && (MayClaim(s'.tasks[t]) ==> s.role == Client))
  {
  }

  lemma FallbackKeepsRetry(s: State, t: Tid, k: Task)
    requires OwnInv(s) && RetryInv(s) && t in s.tasks && s.tasks[t] == k && k.InFallback()
    ensures RetryInv(StepFallback(s, t, k))
  {
    if k.FallbackClaim? && !s.entry.retryingConn {
      ClaimKeepsRetry(s, t);
    } else {
      FallbackFrames(s, t, k);
      RetryFrame(s, StepFallback(s, t, k), t);
    }
  }

  lemma FallbackFrames(s: State, t: Tid, k: Task)
    requires t in s.tasks && s.tasks[t] == k && k.InFallback() && (k.FallbackClaim? ==> s.entry.retryingConn)
    ensures var s' := StepFallback(s, t, k);
            && s'.role == s.role && s'.entry.retryingConn == s.entry.retryingConn && s'.log.retrier == s.log.retrier
            && (s'.tasks == s.tasks - {t} || (t in s'.tasks && s'.tasks == s.tasks[t := s'.tasks[t]]))
            && (t in s'.tasks ==> !IsRetry(s'.tasks[t]) && (MayClaim(s'.tasks[t]) ==> MayClaim(k)))
  {
  }

  lemma ClaimKeepsRetry(s: State, t: Tid)
    requires RetryInv(s) && t in s.tasks && s.tasks[t] == FallbackClaim && !s.entry.retryingConn
    ensures RetryInv(Goto(Claim(s, t), t, RetrySpawn))
  {
  }

  lemma StepKeepsRetry(s: State, a: Action)
    requires OwnInv(s) && RetryInv(s)
    ensures RetryInv(Step(s, a))
  {
    if a.Go? && a.t in s.tasks {
      var t, k := a.t, s.tasks[a.t];
      if k.InSetup() { SetupKeepsRetry(s, t, k); }
      else if k.InRetry() { RetryKeepsRetry(s, t, k, a.ok); }
      else if k.InPlace() { PlaceKeepsRetry(s, t, k); }
      else if k.InPromote() { PromoteKeepsRetry(s, t, k, a.ok); }
      else if k.InForward() { ForwardKeepsRetry(s, t, k); }
      else if k.InFallback() { FallbackKeepsRetry(s, t, k); }
    }
  }

  lemma {:induction false} RunKeepsRetry(role: Role, actions: seq<Action>)
    ensures RetryInv(Run(role, actions))
    decreases |actions|
  {
    if actions == [] {
    } else {
      var init := actions[..|actions| - 1];
      RunKeepsOwn(role, init);
      RunKeepsRetry(role, init);
      StepKeepsRetry(Run(role, init), actions[|actions| - 1]);
    }
  }

  ghost function Retriers(s: State): set<Tid> { set t | t in s.tasks && IsRetry(s.tasks[t]) }

  /** Over every interleaving of relay reconnects, fallbacks and retries, the number of retry
      goroutines is 1 while the flag is set and 0 otherwise; in proxy role it is always 0. */
  lemma {:induction false} RetryCount(role: Role, actions: seq<Action>)
    ensures var s := Run(role, actions);
            && |Retriers(s)| == (if s.entry.retryingConn then 1 else 0)
            && (role == Proxy ==> !s.entry.retryingConn && Retriers(s) == {})
  {
    var s := Run(role, actions);
    RunKeepsRetry(role, actions);
    RunKeepsOwn(role, actions);
    if s.entry.retryingConn {
      assert Retriers(s) == {s.log.retrier.value};
    } else {
      assert Retriers(s) == {};
    }
  }
}

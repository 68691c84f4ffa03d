/** The direct-path flag: never stranded, and exclusive on a client without inbound connections. */
module PathDirect {
  import opened Basics
  import opened PeerEntries
  import opened PathSwitch
  import opened PathOwnership

  /** From the promotion to the section that commits the fallback. */
  predicate IsReader(k: Task)
  {
    (k.Activate? && k.who == Direct) || (k.Fork? && k.who == Direct) || k.DirectForward? || k.DirectFallback?
  }

  /** The forwarder of the latest promotion is pending or running, its fallback not committed. */
  ghost predicate Attended(s: State)
  {
    s.log.promotedLast.Some? &&
    var c := s.log.promotedLast.value;
    c in s.log.holder && s.log.holder[c] in s.tasks &&
    IsReader(s.tasks[s.log.holder[c]]) && Held(s.tasks[s.log.holder[c]]) == Some(c)
  }

  ghost predicate DirectInv(s: State) { s.entry.hasDirectPath ==> Attended(s) }

  lemma SetupKeepsDirect(s: State, t: Tid, k: Task)
    requires OwnInv(s) && DirectInv(s) && t in s.tasks && s.tasks[t] == k && k.InSetup()
    ensures DirectInv(StepSetup(s, t, k))
  {
  }

  lemma RetryKeepsDirect(s: State, t: Tid, k: Task, ok: bool)
    requires OwnInv(s) && DirectInv(s) && t in s.tasks && s.tasks[t] == k && k.InRetry()
    ensures DirectInv(StepRetry(s, t, k, ok))
  {
  }

  lemma PlaceKeepsDirect(s: State, t: Tid, k: Task)
    requires OwnInv(s) && DirectInv(s) && t in s.tasks && s.tasks[t] == k && k.InPlace()
    ensures DirectInv(StepPlace(s, t, k))
  {
  }

  lemma PromoteKeepsDirect(s: State, t: Tid, k: Task, ok: bool)
    requires OwnInv(s) && DirectInv(s) && t in s.tasks && s.tasks[t] == k && k.InPromote()
    ensures DirectInv(StepPromote(s, t, k, ok))
  {
  }

  lemma ForwardKeepsDirect(s: State, t: Tid, k: Task)
    requires OwnInv(s) && DirectInv(s) && t in s.tasks && s.tasks[t] == k && k.InForward()
    ensures DirectInv(StepForward(s, t, k))
  {
  }

  lemma FallbackKeepsDirect(s: State, t: Tid, k: Task)
    requires OwnInv(s) && DirectInv(s) && t in s.tasks && s.tasks[t] == k && k.InFallback()
    ensures DirectInv(StepFallback(s, t, k))
  {
  }

  lemma StepKeepsDirect(s: State, a: Action)
    requires OwnInv(s) && DirectInv(s)
    ensures DirectInv(Step(s, a))
  {
    if a.Go? && a.t in s.tasks {
      var t, k := a.t, s.tasks[a.t];
      if k.InSetup() { SetupKeepsDirect(s, t, k); }
      else if k.InRetry() { RetryKeepsDirect(s, t, k, a.ok); }
      else if k.InPlace() { PlaceKeepsDirect(s, t, k); }
      else if k.InPromote() { PromoteKeepsDirect(s, t, k, a.ok); }
      else if k.InForward() { ForwardKeepsDirect(s, t, k); }
      else if k.InFallback() { FallbackKeepsDirect(s, t, k); }
    }
  }

  /** In both roles and every interleaving, while the flag is set the forwarder of the latest
      promotion is pending or running and has not committed its fallback. */
  lemma {:induction false} NeverStranded(role: Role, actions: seq<Action>)
    ensures Run(role, actions).entry.hasDirectPath ==> Attended(Run(role, actions))
    decreases |actions|
  {
    if actions == [] {
    } else {
      var init := actions[..|actions| - 1];
      RunKeepsOwn(role, init);
      NeverStranded(role, init);
      StepKeepsDirect(Run(role, init), actions[|actions| - 1]);
    }
  }

  // ----------------------------------------------------------- exclusivity

  /** Every goroutine that reads a direct conn reads the latest one, while the flag is set. */
  ghost predicate ExclusiveInv(s: State)
  {
    forall t :: t in s.tasks && IsReader(s.tasks[t]) ==> s.entry.hasDirectPath && Held(s.tasks[t]) == s.log.promotedLast
  }

  /** An inbound connection takes over from a direct path that is on record. */
  predicate Replaces(s: State, a: Action)
  {
    a.Go? && a.t in s.tasks && s.tasks[a.t].InboundCommit? && s.entry.hasDirectPath
  }

  lemma SetupKeepsExclusive(s: State, t: Tid, k: Task)
    requires OwnInv(s) && DirectInv(s) && ExclusiveInv(s) && t in s.tasks && s.tasks[t] == k && k.InSetup()
    ensures ExclusiveInv(StepSetup(s, t, k))
  {
  }

  lemma RetryKeepsExclusive(s: State, t: Tid, k: Task, ok: bool)
    requires OwnInv(s) && DirectInv(s) && ExclusiveInv(s) && t in s.tasks && s.tasks[t] == k && k.InRetry()
    ensures ExclusiveInv(StepRetry(s, t, k, ok))
  {
  }

  lemma PlaceKeepsExclusive(s: State, t: Tid, k: Task)
    requires OwnInv(s) && DirectInv(s) && ExclusiveInv(s) && t in s.tasks && s.tasks[t] == k && k.InPlace()
    ensures ExclusiveInv(StepPlace(s, t, k))
  {
  }

  lemma PromoteKeepsExclusive(s: State, t: Tid, k: Task, ok: bool)
    requires OwnInv(s) && DirectInv(s) && ExclusiveInv(s) && t in s.tasks && s.tasks[t] == k && k.InPromote()
    ensures ExclusiveInv(StepPromote(s, t, k, ok)) <==> !(k.InboundCommit? && s.entry.hasDirectPath)
  {
    if k.InboundCommit? && s.entry.hasDirectPath {
      var r := s.log.holder[s.log.promotedLast.value];
      assert r != t && IsReader(StepPromote(s, t, k, ok).tasks[r]);
    }
  }

  lemma ForwardKeepsExclusive(s: State, t: Tid, k: Task)
    requires OwnInv(s) && DirectInv(s) && ExclusiveInv(s) && t in s.tasks && s.tasks[t] == k && k.InForward()
    ensures ExclusiveInv(StepForward(s, t, k))
  {
  }

  lemma FallbackKeepsExclusive(s: State, t: Tid, k: Task)
    requires OwnInv(s) && DirectInv(s) && ExclusiveInv(s) && t in s.tasks && s.tasks[t] == k && k.InFallback()
    ensures ExclusiveInv(StepFallback(s, t, k))
  {
  }

  /** Exactly one step makes two goroutines read direct conns, or one read without the flag: an
      inbound connection that takes over from a path on record. */
  lemma ExclusiveStep(s: State, a: Action)
    requires OwnInv(s) && DirectInv(s) && ExclusiveInv(s)
    ensures ExclusiveInv(Step(s, a)) <==> !Replaces(s, a)
  {
    if a.Go? && a.t in s.tasks {
      var t, k := a.t, s.tasks[a.t];
      if k.InSetup() { SetupKeepsExclusive(s, t, k); }
      else if k.InRetry() { RetryKeepsExclusive(s, t, k, a.ok); }
      else if k.InPlace() { PlaceKeepsExclusive(s, t, k); }
      else if k.InPromote() { PromoteKeepsExclusive(s, t, k, a.ok); }
      else if k.InForward() { ForwardKeepsExclusive(s, t, k); }
      else if k.InFallback() { FallbackKeepsExclusive(s, t, k); }
    }
  }

  /** Over every run: readers beyond the one the flag stands for go back to such a takeover. */
  lemma {:induction false} ExclusiveLossTraced(role: Role, actions: seq<Action>)
    ensures ExclusiveInv(Run(role, actions))
            || exists i :: 0 <= i < |actions| && Replaces(Run(role, actions[..i]), actions[i])
    decreases |actions|
  {
    if actions == [] {
    } else {
      var n := |actions| - 1;
      var init := actions[..n];
      ExclusiveLossTraced(role, init);
      if ExclusiveInv(Run(role, init)) {
        RunKeepsOwn(role, init);
        NeverStranded(role, init);
        ExclusiveStep(Run(role, init), actions[n]);
      } else {
        var i :| 0 <= i < |init| && Replaces(Run(role, init[..i]), init[i]);
        assert init[..i] == actions[..i] && init[i] == actions[i];
      }
    }
  }

  // ----------------------------------------------------- no inbound connection

  ghost predicate NoInbound(actions: seq<Action>) { InboundDirect !in actions }

  ghost predicate NobodyInbound(s: State) { forall t :: t in s.tasks ==> !s.tasks[t].InboundCommit? }

  lemma MoverNotInbound(s: State, t: Tid, k: Task, ok: bool)
    requires FreshTids(s) && t in s.tasks && s.tasks[t] == k && t in StepTask(s, t, k, ok).tasks
    ensures !StepTask(s, t, k, ok).tasks[t].InboundCommit?
  {
  }

  lemma StepKeepsNobody(s: State, a: Action)
    requires FreshTids(s) && NobodyInbound(s) && !a.InboundDirect?
    ensures NobodyInbound(Step(s, a))
  {
    forall t | t in Step(s, a).tasks ensures !Step(s, a).tasks[t].InboundCommit? {
      if a.Go? && a.t == t && t in s.tasks {
        MoverNotInbound(s, t, s.tasks[t], a.ok);
      } else {
        OtherTask(s, a, t);
      }
    }
  }

  lemma {:induction false} RunKeepsExclusive(role: Role, actions: seq<Action>)
    requires NoInbound(actions)
    ensures NobodyInbound(Run(role, actions)) && ExclusiveInv(Run(role, actions))
    decreases |actions|
  {
    if actions == [] {
    } else {
      var init, a := actions[..|actions| - 1], actions[|actions| - 1];
      RunKeepsOwn(role, init);
      NeverStranded(role, init);
      RunKeepsExclusive(role, init);
      StepKeepsNobody(Run(role, init), a);
      ExclusiveStep(Run(role, init), a);
    }
  }

  ghost function Readers(s: State): set<Tid> { set t | t in s.tasks && IsReader(s.tasks[t]) }

  /** For any number of concurrent promotion attempts and no inbound CONNECT-IP, the direct
      readers number 1 while the flag is set and 0 otherwise, and a forwarder that reaches
      fallbackToRelay always finds the flag set: the "already fell back" branch is dead. */
  lemma {:induction false} PromotionExclusive(role: Role, actions: seq<Action>)
    requires NoInbound(actions)
    ensures var s := Run(role, actions);
            && |Readers(s)| == (if s.entry.hasDirectPath then 1 else 0)
            && (forall t :: t in s.tasks && s.tasks[t].DirectFallback? ==> s.entry.hasDirectPath)
  {
    var s := Run(role, actions);
    RunKeepsOwn(role, actions);
    NeverStranded(role, actions);
    RunKeepsExclusive(role, actions);
    if s.entry.hasDirectPath {
      var r := s.log.holder[s.log.promotedLast.value];
      assert Readers(s) == {r};
    } else {
      assert Readers(s) == {};
    }
  }

  // ------------------------------------------------------------ stale fallback

  // What becomes of the flag and of the latest promotion's forwarder.
  lemma FlagStays(s: State, t: Tid, k: Task, ok: bool)
    requires t in s.tasks && s.tasks[t] == k && !k.DirectFallback? && s.entry.hasDirectPath
    ensures StepTask(s, t, k, ok).entry.hasDirectPath
  {
  }

  lemma FallbackForgets(s: State, t: Tid, c: Conn)
    requires OwnInv(s) && DirectInv(s) && t in s.tasks && s.tasks[t] == DirectFallback(c) && s.entry.hasDirectPath
    ensures !StepForward(s, t, DirectFallback(c)).entry.hasDirectPath
    ensures Attended(StepForward(s, t, DirectFallback(c))) <==> s.log.promotedLast != Some(c)
  {
  }

  /** fallbackToRelay does not ask whose forwarder it serves: the flag is lost while the forwarder of
      the latest promotion is still pending or running, if and only if the fallback is that of a
      conn which a later promotion has replaced. */
  lemma StaleFallback(s: State, a: Action)
    requires OwnInv(s) && DirectInv(s) && s.entry.hasDirectPath
    ensures !Step(s, a).entry.hasDirectPath && Attended(Step(s, a)) <==>
            a.Go? && a.t in s.tasks && s.tasks[a.t].DirectFallback? && s.log.promotedLast != Some(s.tasks[a.t].c)
  {
    if a.Go? && a.t in s.tasks {
      if s.tasks[a.t].DirectFallback? {
        FallbackForgets(s, a.t, s.tasks[a.t].c);
      } else {
        FlagStays(s, a.t, s.tasks[a.t], a.ok);
      }
    }
  }
}

/** The active connection and its forwarder. */
module PathActive {
  import opened Basics
  import opened PeerEntries
  import opened PathSwitch
  import opened PathOwnership

  /** A forwarder of `c` is running, or about to be launched after SetConn. */
  predicate Forwards(k: Task, c: Conn)
  {
    (k.Fork? && k.c == c) || k == RelayForward(c) || k == DirectForward(c)
  }

  /** ... or the goroutine that will launch it has yet to make its own SetConn. */
  predicate WillForward(k: Task, c: Conn)
  {
    Forwards(k, c) || ((k.CloseOld? || k.Activate?) && k.c == c)
  }

  /** A forwarder of `c` is running or will be launched, and has not done its ClearConnIf. */
  ghost predicate HasForwarder(s: State, c: Conn)
  {
    c in s.log.holder && s.log.holder[c] in s.tasks && WillForward(s.tasks[s.log.holder[c]], c)
  }

  // --------------------------------------------------- cleared or forwarded

  predicate BeforeClear(k: Task) { Held(k).Some? && !k.DirectFallback? }

  /** No conn is cleared before its forwarder has exited. */
  ghost predicate ClearInv(s: State)
  {
    && (forall t :: t in s.tasks && BeforeClear(s.tasks[t]) ==> Held(s.tasks[t]).value !in s.log.cleared)
    && (forall c :: c in s.log.cleared ==> c < s.nextConn)
  }

  ghost predicate Settled(s: State, c: Conn) { c in s.log.cleared || HasForwarder(s, c) }

  /** The conn on record as relay path, and every conn a fallback is about to restore, has been
      cleared or has its forwarder. */
  ghost predicate RecordInv(s: State)
  {
    && (s.entry.relayConn.Some? ==> Settled(s, s.entry.relayConn.value))
    && (forall t :: t in s.tasks && s.tasks[t].FallbackRestore? ==> Settled(s, s.tasks[t].c))
  }

  lemma SetupKeepsClear(s: State, t: Tid, k: Task)
    requires OwnInv(s) && ClearInv(s) && t in s.tasks && s.tasks[t] == k && k.InSetup()
    ensures ClearInv(StepSetup(s, t, k))
  {
  }

  lemma RetryKeepsClear(s: State, t: Tid, k: Task, ok: bool)
    requires OwnInv(s) && ClearInv(s) && t in s.tasks && s.tasks[t] == k && k.InRetry()
    ensures ClearInv(StepRetry(s, t, k, ok))
  {
  }

  lemma PlaceKeepsClear(s: State, t: Tid, k: Task)
    requires OwnInv(s) && ClearInv(s) && t in s.tasks && s.tasks[t] == k && k.InPlace()
    ensures ClearInv(StepPlace(s, t, k))
  {
  }

  lemma PromoteKeepsClear(s: State, t: Tid, k: Task, ok: bool)
    requires OwnInv(s) && ClearInv(s) && t in s.tasks && s.tasks[t] == k && k.InPromote()
    ensures ClearInv(StepPromote(s, t, k, ok))
  {
  }

  lemma ForwardKeepsClear(s: State, t: Tid, k: Task)
    requires OwnInv(s) && ClearInv(s) && t in s.tasks && s.tasks[t] == k && k.InForward()
    ensures ClearInv(StepForward(s, t, k))
  {
  }

  lemma FallbackKeepsClear(s: State, t: Tid, k: Task)
    requires OwnInv(s) && ClearInv(s) && t in s.tasks && s.tasks[t] == k && k.InFallback()
    ensures ClearInv(StepFallback(s, t, k))
  {
  }

  lemma StepKeepsClear(s: State, a: Action)
    requires OwnInv(s) && ClearInv(s)
    ensures ClearInv(Step(s, a))
  {
    if a.Go? && a.t in s.tasks {
      var t, k := a.t, s.tasks[a.t];
      if k.InSetup() { SetupKeepsClear(s, t, k); }
      else if k.InRetry() { RetryKeepsClear(s, t, k, a.ok); }
      else if k.InPlace() { PlaceKeepsClear(s, t, k); }
      else if k.InPromote() { PromoteKeepsClear(s, t, k, a.ok); }
      else if k.InForward() { ForwardKeepsClear(s, t, k); }
      else if k.InFallback() { FallbackKeepsClear(s, t, k); }
    }
  }

  lemma ClearedGrows(s: State, a: Action)
    ensures s.log.cleared <= Step(s, a).log.cleared
  {
    if a.Go? && a.t in s.tasks {
      var t, k := a.t, s.tasks[a.t];
      if k.InForward() {
      } else if k.InPlace() || k.InFallback() {
        PlacingClearsNothing(s, t, k, a.ok);
      } else {
        SeekingClearsNothing(s, t, k, a.ok);
      }
    }
  }

  lemma PlacingClearsNothing(s: State, t: Tid, k: Task, ok: bool)
    requires k.InPlace() || k.InFallback()
    ensures StepTask(s, t, k, ok).log.cleared == s.log.cleared
  {
  }

  lemma SeekingClearsNothing(s: State, t: Tid, k: Task, ok: bool)
    requires k.InSetup() || k.InRetry() || k.InPromote() || k.Handshake?
    ensures StepTask(s, t, k, ok).log.cleared == s.log.cleared
  {
  }

  // The goroutine that has `c` in hand moves: it still forwards `c`, or has cleared it.
  lemma HolderMoves(s: State, t: Tid, k: Task, ok: bool, c: Conn)
    requires OwnInv(s) && t in s.tasks && s.tasks[t] == k && WillForward(k, c)
    ensures Settled(StepTask(s, t, k, ok), c)
  {
    if k.InPlace() { PlaceSettles(s, t, k, c); }
  }

  lemma PlaceSettles(s: State, t: Tid, k: Task, c: Conn)
    requires OwnInv(s) && t in s.tasks && s.tasks[t] == k && WillForward(k, c) && k.InPlace()
    ensures HasForwarder(StepPlace(s, t, k), c)
  {
  }

  // A settled conn stays settled.
  lemma StaysSettled(s: State, a: Action, c: Conn)
    requires OwnInv(s) && Settled(s, c)
    ensures Settled(Step(s, a), c)
  {
    ClearedGrows(s, a);
    if HasForwarder(s, c) {
      var t := s.log.holder[c];
      if a.Go? && a.t == t {
        HolderMoves(s, t, s.tasks[t], a.ok, c);
      } else {
        Bystander(s, a, t);
        HolderStays(s, a, c);
      }
    }
  }

  // Where a conn on record, or one about to be restored, comes from.
  lemma RecordSource(s: State, a: Action)
    requires OwnInv(s)
    ensures var s' := Step(s, a);
            s'.entry.relayConn == s.entry.relayConn || s'.entry.relayConn == None
            || (a.Go? && a.t in s.tasks && s.tasks[a.t].Install? && s'.entry.relayConn == Some(s.tasks[a.t].c))
  {
    if a.Go? && a.t in s.tasks {
      var t, k := a.t, s.tasks[a.t];
      if k.InSetup() || k.InRetry() || k.InForward() || k.Handshake? {
        SeekersDoNotRecord(s, t, k, a.ok);
      } else {
        OnlyInstallRecords(s, t, k, a.ok);
      }
    }
  }

  lemma SeekersDoNotRecord(s: State, t: Tid, k: Task, ok: bool)
    requires k.InSetup() || k.InRetry() || k.InForward() || k.Handshake?
    ensures StepTask(s, t, k, ok).entry.relayConn == s.entry.relayConn || StepTask(s, t, k, ok).entry.relayConn == None
  {
  }

  lemma OnlyInstallRecords(s: State, t: Tid, k: Task, ok: bool)
    requires k.InPlace() || k.InPromote() || k.InFallback()
    ensures var c := StepTask(s, t, k, ok).entry.relayConn;
            c == s.entry.relayConn || c == None || (k.Install? && c == Some(k.c))
  {
  }

  lemma RestoreSource(s: State, a: Action, t: Tid)
    requires OwnInv(s) && t in Step(s, a).tasks && Step(s, a).tasks[t].FallbackRestore?
    ensures t in s.tasks
    ensures s.tasks[t] == Step(s, a).tasks[t] || s.entry.relayConn == Some(Step(s, a).tasks[t].c)
  {
    if a.Go? && a.t == t && t in s.tasks {
      MoverRestores(s, t, s.tasks[t], a.ok);
    } else {
      OtherTask(s, a, t);
    }
  }

  lemma MoverRestores(s: State, t: Tid, k: Task, ok: bool)
    requires FreshTids(s) && t in s.tasks && s.tasks[t] == k
    requires t in StepTask(s, t, k, ok).tasks && StepTask(s, t, k, ok).tasks[t].FallbackRestore?
    ensures s.entry.relayConn == Some(StepTask(s, t, k, ok).tasks[t].c)
  {
    if k.InFallback() {
    } else {
      OnlyFallbackRestores(s, t, k, ok);
    }
  }

  lemma OnlyFallbackRestores(s: State, t: Tid, k: Task, ok: bool)
    requires FreshTids(s) && t in s.tasks && s.tasks[t] == k && !k.InFallback()
    ensures t in StepTask(s, t, k, ok).tasks ==> !StepTask(s, t, k, ok).tasks[t].FallbackRestore?
  {
  }

  lemma InstallSettles(s: State, t: Tid, k: Task)
    requires OwnInv(s) && t in s.tasks && s.tasks[t] == k && k.Install?
    ensures HasForwarder(StepPlace(s, t, k), k.c)
  {
  }

  lemma StepKeepsRecord(s: State, a: Action)
    requires OwnInv(s) && RecordInv(s)
    ensures RecordInv(Step(s, a))
  {
    RelayStaysSettled(s, a);
    forall t | t in Step(s, a).tasks && Step(s, a).tasks[t].FallbackRestore?
      ensures Settled(Step(s, a), Step(s, a).tasks[t].c)
    {
      RestoreSource(s, a, t);
      StaysSettled(s, a, Step(s, a).tasks[t].c);
    }
  }

  lemma RelayStaysSettled(s: State, a: Action)
    requires OwnInv(s) && RecordInv(s)
    ensures Step(s, a).entry.relayConn.Some? ==> Settled(Step(s, a), Step(s, a).entry.relayConn.value)
  {
    RecordSource(s, a);
    if Step(s, a).entry.relayConn.Some? {
      if Step(s, a).entry.relayConn == s.entry.relayConn {
        StaysSettled(s, a, s.entry.relayConn.value);
      } else {
        InstallSettles(s, a.t, s.tasks[a.t]);
      }
    }
  }

  lemma {:induction false} RunKeepsRecord(role: Role, actions: seq<Action>)
    ensures ClearInv(Run(role, actions)) && RecordInv(Run(role, actions))
    decreases |actions|
  {
    if actions == [] {
    } else {
      var init, a := actions[..|actions| - 1], actions[|actions| - 1];
      RunKeepsOwn(role, init);
      RunKeepsRecord(role, init);
      StepKeepsClear(Run(role, init), a);
      StepKeepsRecord(Run(role, init), a);
    }
  }

  // ------------------------------------------------------------- both roles

  ghost predicate Guarded(s: State) { s.entry.active.Some? ==> HasForwarder(s, s.entry.active.value) }

  /** The proxy's fallback puts back a relay conn whose forwarder has cleared it and exited. */
  predicate RestoresDead(s: State, a: Action)
  {
    a.Go? && a.t in s.tasks && s.tasks[a.t].FallbackRestore? && s.tasks[a.t].c in s.log.cleared
  }

  lemma SetupKeepsGuard(s: State, t: Tid, k: Task)
    requires OwnInv(s) && Guarded(s) && t in s.tasks && s.tasks[t] == k && k.InSetup()
    ensures Guarded(StepSetup(s, t, k))
  {
  }

  lemma RetryKeepsGuard(s: State, t: Tid, k: Task, ok: bool)
    requires OwnInv(s) && Guarded(s) && t in s.tasks && s.tasks[t] == k && k.InRetry()
    ensures Guarded(StepRetry(s, t, k, ok))
  {
  }

  lemma PlaceKeepsGuard(s: State, t: Tid, k: Task)
    requires OwnInv(s) && Guarded(s) && t in s.tasks && s.tasks[t] == k && k.InPlace()
    ensures Guarded(StepPlace(s, t, k))
  {
  }

  lemma PromoteKeepsGuard(s: State, t: Tid, k: Task, ok: bool)
    requires OwnInv(s) && Guarded(s) && t in s.tasks && s.tasks[t] == k && k.InPromote()
    ensures Guarded(StepPromote(s, t, k, ok))
  {
  }

  lemma ForwardKeepsGuard(s: State, t: Tid, k: Task)
    requires OwnInv(s) && Guarded(s) && t in s.tasks && s.tasks[t] == k && k.InForward()
    ensures Guarded(StepForward(s, t, k))
  {
  }

  lemma RestoreGuards(s: State, t: Tid, c: Conn)
    requires ClearInv(s) && Settled(s, c) && t in s.tasks && s.tasks[t] == FallbackRestore(c)
    ensures Guarded(StepFallback(s, t, FallbackRestore(c))) <==> c !in s.log.cleared
  {
  }

  lemma FallbackKeepsGuard(s: State, t: Tid, k: Task)
    requires OwnInv(s) && ClearInv(s) && RecordInv(s) && Guarded(s)
    requires t in s.tasks && s.tasks[t] == k && k.InFallback()
    ensures Guarded(StepFallback(s, t, k)) <==> !RestoresDead(s, Go(t, true))
  {
    if k.FallbackRestore? {
      RestoreGuards(s, t, k.c);
    } else {
      FallbackGuards(s, t, k);
    }
  }

  lemma FallbackGuards(s: State, t: Tid, k: Task)
    requires OwnInv(s) && Guarded(s) && t in s.tasks && s.tasks[t] == k && k.InFallback() && !k.FallbackRestore?
    ensures Guarded(StepFallback(s, t, k))
  {
  }

  /** Exactly one step can leave an active conn without a forwarder: a proxy fallback that
      restores a relay conn whose forwarder has already cleared it. */
  lemma GuardStep(s: State, a: Action)
    requires OwnInv(s) && ClearInv(s) && RecordInv(s) && Guarded(s)
    ensures Guarded(Step(s, a)) <==> !RestoresDead(s, a)
  {
    if a.Go? && a.t in s.tasks {
      var t, k := a.t, s.tasks[a.t];
      if k.InSetup() { SetupKeepsGuard(s, t, k); }
      else if k.InRetry() { RetryKeepsGuard(s, t, k, a.ok); }
      else if k.InPlace() { PlaceKeepsGuard(s, t, k); }
      else if k.InPromote() { PromoteKeepsGuard(s, t, k, a.ok); }
      else if k.InForward() { ForwardKeepsGuard(s, t, k); }
      else if k.InFallback() { FallbackKeepsGuard(s, t, k); }
    }
  }

  /** Over every run in either role: an active conn without forwarder goes back to such a restore. */
  lemma {:induction false} GuardLossTraced(role: Role, actions: seq<Action>)
    ensures Guarded(Run(role, actions))
            || exists i :: 0 <= i < |actions| && RestoresDead(Run(role, actions[..i]), actions[i])
    decreases |actions|
  {
    if actions == [] {
    } else {
      var n := |actions| - 1;
      var init := actions[..n];
      GuardLossTraced(role, init);
      if Guarded(Run(role, init)) {
        RunKeepsOwn(role, init);
        RunKeepsRecord(role, init);
        GuardStep(Run(role, init), actions[n]);
      } else {
        var i :| 0 <= i < |init| && RestoresDead(Run(role, init[..i]), init[i]);
        assert init[..i] == actions[..i] && init[i] == actions[i];
      }
    }
  }

  // ----------------------------------------------------------- client role

  /** Carried, but not yet the argument of SetConn. */
  predicate BeforeSetConn(k: Task)
  {
    k.Install? || k.CloseOld? || k.Activate? || k.PromoteCommit? || k.PromoteAbort? || k.InboundCommit?
  }

  /** Client: no proxy-only step exists; a conn that is still carried towards SetConn has not been
      active; no conn was set twice. */
  ghost predicate OnceInv(s: State)
  {
    && s.role == Client
    && (forall t :: t in s.tasks ==> !s.tasks[t].FallbackRead? && !s.tasks[t].FallbackRestore?)
    && (forall t :: t in s.tasks && BeforeSetConn(s.tasks[t]) ==> Held(s.tasks[t]).value !in s.log.activated)
    && (s.entry.active.Some? ==> s.entry.active.value in s.log.activated)
    && (forall c :: c in s.log.activated ==> c < s.nextConn)
    && (forall i, j :: 0 <= i < j < |s.log.activated| ==> s.log.activated[i] != s.log.activated[j])
  }

  lemma SetupKeepsOnce(s: State, t: Tid, k: Task)
    requires OwnInv(s) && OnceInv(s) && t in s.tasks && s.tasks[t] == k && k.InSetup()
    ensures OnceInv(StepSetup(s, t, k))
  {
  }

  lemma RetryKeepsOnce(s: State, t: Tid, k: Task, ok: bool)
    requires OwnInv(s) && OnceInv(s) && t in s.tasks && s.tasks[t] == k && k.InRetry()
    ensures OnceInv(StepRetry(s, t, k, ok))
  {
  }

  lemma ActivateKeepsOnce(s: State, t: Tid, k: Task)
    requires OwnInv(s) && OnceInv(s) && t in s.tasks && s.tasks[t] == k && k.Activate?
    ensures OnceInv(StepPlace(s, t, k))
  {
  }

  lemma ForkKeepsOnce(s: State, t: Tid, k: Task)
    requires OwnInv(s) && OnceInv(s) && t in s.tasks && s.tasks[t] == k && k.Fork?
    ensures OnceInv(StepPlace(s, t, k))
  {
  }

  lemma PlaceKeepsOnce(s: State, t: Tid, k: Task)
    requires OwnInv(s) && OnceInv(s) && t in s.tasks && s.tasks[t] == k && k.InPlace()
    ensures OnceInv(StepPlace(s, t, k))
  {
    if k.Activate? {
      ActivateKeepsOnce(s, t, k);
    } else if k.Fork? {
      ForkKeepsOnce(s, t, k);
    }
  }

  lemma PromoteKeepsOnce(s: State, t: Tid, k: Task, ok: bool)
    requires OwnInv(s) && OnceInv(s) && t in s.tasks && s.tasks[t] == k && k.InPromote()
    ensures OnceInv(StepPromote(s, t, k, ok))
  {
    if k.PromoteDial? {
      DialKeepsOnce(s, t, ok);
    } else {
      CommitKeepsOnce(s, t, k, ok);
    }
  }

  lemma DialKeepsOnce(s: State, t: Tid, ok: bool)
    requires OwnInv(s) && OnceInv(s) && t in s.tasks && s.tasks[t] == PromoteDial
    ensures OnceInv(StepPromote(s, t, PromoteDial, ok))
  {
  }

  lemma CommitKeepsOnce(s: State, t: Tid, k: Task, ok: bool)
    requires OnceInv(s) && t in s.tasks && s.tasks[t] == k && k.InPromote() && !k.PromoteDial?
    ensures OnceInv(StepPromote(s, t, k, ok))
  {
  }

  lemma ForwardKeepsOnce(s: State, t: Tid, k: Task)
    requires OwnInv(s) && OnceInv(s) && t in s.tasks && s.tasks[t] == k && k.InForward()
    ensures OnceInv(StepForward(s, t, k))
  {
  }

  lemma FallbackKeepsOnce(s: State, t: Tid, k: Task)
    requires OwnInv(s) && OnceInv(s) && t in s.tasks && s.tasks[t] == k && k.InFallback()
    ensures OnceInv(StepFallback(s, t, k))
  {
  }

  lemma StepKeepsOnce(s: State, a: Action)
    requires OwnInv(s) && OnceInv(s)
    ensures OnceInv(Step(s, a))
  {
    if a.Go? && a.t in s.tasks {
      var t, k := a.t, s.tasks[a.t];
      if k.InSetup() { SetupKeepsOnce(s, t, k); }
      else if k.InRetry() { RetryKeepsOnce(s, t, k, a.ok); }
      else if k.InPlace() { PlaceKeepsOnce(s, t, k); }
      else if k.InPromote() { PromoteKeepsOnce(s, t, k, a.ok); }
      else if k.InForward() { ForwardKeepsOnce(s, t, k); }
      else if k.InFallback() { FallbackKeepsOnce(s, t, k); }
    }
  }

  lemma {:induction false} RunKeepsOnce(actions: seq<Action>)
    ensures Guarded(Run(Client, actions)) && OnceInv(Run(Client, actions))
    decreases |actions|
  {
    if actions == [] {
    } else {
      var init, a := actions[..|actions| - 1], actions[|actions| - 1];
      RunKeepsOwn(Client, init);
      RunKeepsRecord(Client, init);
      RunKeepsOnce(init);
      GuardStep(Run(Client, init), a);
      StepKeepsOnce(Run(Client, init), a);
    }
  }

  /** In client role, in every reachable state, the active conn has a forwarder that is running or
      is launched next and has not done its ClearConnIf; each conn becomes active at most once; so
      a conn that its forwarder has cleared is never active again. */
  lemma {:induction false} ActiveIsForwarded(actions: seq<Action>)
    ensures var s := Run(Client, actions);
            && (forall c :: s.entry.active == Some(c) ==>
                  && c in s.log.holder && s.log.holder[c] in s.tasks && Forwards(s.tasks[s.log.holder[c]], c)
                  && c !in s.log.cleared)
            && (forall i, j :: 0 <= i < j < |s.log.activated| ==> s.log.activated[i] != s.log.activated[j])
  {
    RunKeepsOnce(actions);
    RunKeepsRecord(Client, actions);
  }
}

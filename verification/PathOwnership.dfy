/** Who holds which connection: the invariants every other path-switching result rests on. */
module PathOwnership {
  import opened Basics
  import opened PeerEntries
  import opened PathSwitch

  /** The connection a goroutine was started with or has dialled. */
  function Held(k: Task): Option<Conn>
  {
    match k
    case Install(c, _) => Some(c)
    case CloseOld(c, _, _) => Some(c)
    case Activate(c, _) => Some(c)
    case Fork(c, _) => Some(c)
    case RelayForward(c) => Some(c)
    case PromoteCommit(c) => Some(c)
    case PromoteAbort(c) => Some(c)
    case InboundCommit(c) => Some(c)
    case DirectForward(c) => Some(c)
    case DirectFallback(c) => Some(c)
    case _ => None
  }

  ghost predicate FreshTids(s: State) { forall t :: t in s.tasks ==> t < s.nextTid }

  /** Every connection is held where the history says, so it has one holder; ids are fresh. */
  ghost predicate OwnInv(s: State)
  {
    && FreshTids(s)
    && (forall c :: c in s.log.holder ==> c < s.nextConn)
    && (forall t :: t in s.tasks && (s.tasks[t].Install? || s.tasks[t].CloseOld?) ==> s.tasks[t].who != Direct)
    && (forall t :: t in s.tasks && Held(s.tasks[t]).Some? ==>
          Held(s.tasks[t]).value in s.log.holder && s.log.holder[Held(s.tasks[t]).value] == t)
  }

  // The goroutine that moves ends up holding nothing; nobody else changes.
  lemma LetGo(s: State, t: Tid, s': State)
    requires OwnInv(s) && s'.nextTid == s.nextTid && s'.nextConn == s.nextConn && s'.log.holder == s.log.holder
    requires s'.tasks == s.tasks - {t} ||
             (t in s.tasks && t in s'.tasks && s'.tasks == s.tasks[t := s'.tasks[t]] && Held(s'.tasks[t]) == None)
    ensures OwnInv(s')
  {
  }

  lemma SetupKeepsOwn(s: State, t: Tid, k: Task)
    requires OwnInv(s) && t in s.tasks && s.tasks[t] == k && k.InSetup()
    ensures OwnInv(StepSetup(s, t, k))
  {
  }

  lemma RetryKeepsOwn(s: State, t: Tid, k: Task, ok: bool)
    requires OwnInv(s) && t in s.tasks && s.tasks[t] == k && k.InRetry()
    ensures OwnInv(StepRetry(s, t, k, ok))
  {
  }

  lemma PlaceKeepsOwn(s: State, t: Tid, k: Task)
    requires OwnInv(s) && t in s.tasks && s.tasks[t] == k && k.InPlace()
    ensures OwnInv(StepPlace(s, t, k))
  {
  }

  lemma PromoteKeepsOwn(s: State, t: Tid, k: Task, ok: bool)
    requires OwnInv(s) && t in s.tasks && s.tasks[t] == k && k.InPromote()
    ensures OwnInv(StepPromote(s, t, k, ok))
  {
  }

  lemma ForwardKeepsOwn(s: State, t: Tid, k: Task)
    requires OwnInv(s) && t in s.tasks && s.tasks[t] == k && k.InForward()
    ensures OwnInv(StepForward(s, t, k))
  {
  }

  lemma FallbackKeepsOwn(s: State, t: Tid, k: Task)
    requires OwnInv(s) && t in s.tasks && s.tasks[t] == k && k.InFallback()
    ensures OwnInv(StepFallback(s, t, k))
  {
    LetGo(s, t, StepFallback(s, t, k));
  }

  lemma StepKeepsOwn(s: State, a: Action)
    requires OwnInv(s)
    ensures OwnInv(Step(s, a))
  {
    if a.Go? && a.t in s.tasks {
      var t, k := a.t, s.tasks[a.t];
      if k.InSetup() { SetupKeepsOwn(s, t, k); }
      else if k.InRetry() { RetryKeepsOwn(s, t, k, a.ok); }
      else if k.InPlace() { PlaceKeepsOwn(s, t, k); }
      else if k.InPromote() { PromoteKeepsOwn(s, t, k, a.ok); }
      else if k.InForward() { ForwardKeepsOwn(s, t, k); }
      else if k.InFallback() { FallbackKeepsOwn(s, t, k); }
    }
  }

  lemma {:induction false} RunKeepsOwn(role: Role, actions: seq<Action>)
    ensures OwnInv(Run(role, actions)) && Run(role, actions).role == role
    decreases |actions|
  {
    if actions == [] {
    } else {
      RunKeepsOwn(role, actions[..|actions| - 1]);
      StepKeepsOwn(Run(role, actions[..|actions| - 1]), actions[|actions| - 1]);
    }
  }

  // A goroutine that does not move is still there, with what it holds.
  lemma Bystander(s: State, a: Action, u: Tid)
    requires OwnInv(s) && u in s.tasks && !(a.Go? && a.t == u)
    ensures u in Step(s, a).tasks && Step(s, a).tasks[u] == s.tasks[u]
  {
    if a.Go? && a.t in s.tasks {
      OnlyTheMover(s, a.t, s.tasks[a.t], a.ok, u);
    }
  }

  // Of the goroutines that were there, a step changes only the one that takes it; any other that is
  // there afterwards has just been started.
  lemma OnlyTheMover(s: State, t: Tid, k: Task, ok: bool, u: Tid)
    requires FreshTids(s) && t in s.tasks && s.tasks[t] == k && t != u
    ensures var s' := StepTask(s, t, k, ok);
            && (u in s.tasks ==> u in s'.tasks && s'.tasks[u] == s.tasks[u])
            && (u in s'.tasks && u !in s.tasks ==> u == s.nextTid && Starts(s'.tasks[u]) && !s'.tasks[u].InboundCommit?)
  {
    if k.InSetup() || k.InRetry() || k.Handshake? {
      OnlyTheSeeker(s, t, k, ok, u);
    } else if k.InPlace() || k.InPromote() {
      OnlyThePlacer(s, t, k, ok, u);
    } else {
      OnlyTheForwarder(s, t, k, ok, u);
    }
  }

  lemma OnlyTheSeeker(s: State, t: Tid, k: Task, ok: bool, u: Tid)
    requires FreshTids(s) && t in s.tasks && s.tasks[t] == k && t != u && (k.InSetup() || k.InRetry() || k.Handshake?)
    ensures var s' := StepTask(s, t, k, ok);
            && (u in s.tasks ==> u in s'.tasks && s'.tasks[u] == s.tasks[u])
            && (u in s'.tasks && u !in s.tasks ==> u == s.nextTid && s'.tasks[u].RetryCheck?)
  {
  }

  lemma OnlyThePlacer(s: State, t: Tid, k: Task, ok: bool, u: Tid)
    requires FreshTids(s) && t in s.tasks && s.tasks[t] == k && t != u && (k.InPlace() || k.InPromote())
    ensures var s' := StepTask(s, t, k, ok);
            && (u in s.tasks ==> u in s'.tasks && s'.tasks[u] == s.tasks[u])
            && (u in s'.tasks && u !in s.tasks ==> u == s.nextTid && (s'.tasks[u].RelayForward? || s'.tasks[u].DirectForward?))
  {
  }

  lemma OnlyTheForwarder(s: State, t: Tid, k: Task, ok: bool, u: Tid)
    requires FreshTids(s) && t in s.tasks && s.tasks[t] == k && t != u && (k.InForward() || k.InFallback())
    ensures var s' := StepTask(s, t, k, ok);
            (u in s'.tasks <==> u in s.tasks) && (u in s.tasks ==> s'.tasks[u] == s.tasks[u])
  {
  }

  /** What a goroutine is started with. */
  predicate Starts(k: Task)
  {
    k.SetupClear? || k.Handshake? || k.PromoteCheck? || k.InboundCommit? || k.RetryCheck? || k.RelayForward? || k.DirectForward?
  }

  // Whoever is there after a step and did not take it was there before, or has just been started.
  lemma OtherTask(s: State, a: Action, u: Tid)
    requires FreshTids(s) && u in Step(s, a).tasks && !(a.Go? && a.t == u)
    ensures (u in s.tasks && Step(s, a).tasks[u] == s.tasks[u])
            || (u == s.nextTid && Starts(Step(s, a).tasks[u]) && (Step(s, a).tasks[u].InboundCommit? ==> a.InboundDirect?))
  {
    if a.Go? && a.t in s.tasks {
      OnlyTheMover(s, a.t, s.tasks[a.t], a.ok, u);
    }
  }

  lemma HolderStays(s: State, a: Action, c: Conn)
    requires OwnInv(s) && c in s.log.holder && !(a.Go? && a.t == s.log.holder[c])
    ensures c in Step(s, a).log.holder && Step(s, a).log.holder[c] == s.log.holder[c]
  {
    if a.Go? && a.t in s.tasks {
      var t, k := a.t, s.tasks[a.t];
      if k.Fork? { ForkMovesOwn(s, t, k, c); } else { OnlyForkMoves(s, t, k, a.ok, c); }
    }
  }

  lemma ForkMovesOwn(s: State, t: Tid, k: Task, c: Conn)
    requires OwnInv(s) && t in s.tasks && s.tasks[t] == k && k.Fork? && c in s.log.holder && t != s.log.holder[c]
    ensures c in StepPlace(s, t, k).log.holder && StepPlace(s, t, k).log.holder[c] == s.log.holder[c]
  {
  }

  lemma OnlyForkMoves(s: State, t: Tid, k: Task, ok: bool, c: Conn)
    requires c in s.log.holder && c < s.nextConn && !k.Fork?
    ensures c in StepTask(s, t, k, ok).log.holder && StepTask(s, t, k, ok).log.holder[c] == s.log.holder[c]
  {
    if k.InForward() || k.InFallback() || k.InPlace() { NoNewConn(s, t, k, ok); }
  }

  lemma NoNewConn(s: State, t: Tid, k: Task, ok: bool)
    requires (k.InForward() || k.InFallback() || k.InPlace()) && !k.Fork?
    ensures StepTask(s, t, k, ok).log.holder == s.log.holder
  {
    if k.InPlace() {
      assert StepTask(s, t, k, ok) == StepPlace(s, t, k);
    } else if k.InForward() {
      assert StepTask(s, t, k, ok) == StepForward(s, t, k);
    } else {
      assert StepTask(s, t, k, ok) == StepFallback(s, t, k);
    }
  }
}

/** Ownership of relay connections and the fate of dialled ones: who closes what, and once. */
module PathRelay {
  import opened Basics
  import opened PeerEntries
  import opened PathSwitch
  import opened PathOwnership

  /** The displaced conn a goroutine still has to close. */
  function Pending(k: Task): Option<Conn>
  {
    match k
    case CloseOld(_, o, _) => o
    case FallbackClose(o) => o
    case _ => None
  }

  predicate Unpromoted(k: Task) { k.PromoteCommit? || k.PromoteAbort? }

  /** A conn on its way to relayConn has not been there; a dialled or inbound one never gets there. */
  ghost predicate KindInv(s: State) { CarriedKinds(s) && RecordedKinds(s) }

  ghost predicate CarriedKinds(s: State)
  {
    && (forall t :: t in s.tasks && s.tasks[t].Install? ==>
          s.tasks[t].c !in s.log.installed && s.tasks[t].c !in s.log.dialled && s.tasks[t].c !in s.log.promoted)
    && (forall t :: t in s.tasks && Unpromoted(s.tasks[t]) ==>
          s.tasks[t].c !in s.log.installed && s.tasks[t].c in s.log.dialled && s.tasks[t].c !in s.log.promoted)
    && (forall t :: t in s.tasks && s.tasks[t].InboundCommit? ==>
          s.tasks[t].c !in s.log.installed && s.tasks[t].c !in s.log.dialled)
  }

  ghost predicate RecordedKinds(s: State)
  {
    && (forall c :: c in s.log.installed ==> c < s.nextConn && c !in s.log.dialled && c !in s.log.promoted)
    && (forall c :: c in s.log.dialled ==> c < s.nextConn)
    && (forall c :: c in s.log.promoted ==> c < s.nextConn)
    && (forall i, j :: 0 <= i < j < |s.log.installed| ==> s.log.installed[i] != s.log.installed[j])
  }

  // ---------------------------------------------------------------- framing

  predicate Plain(k: Task) { !k.Install? && !Unpromoted(k) && !k.InboundCommit? }

  predicate Idle(k: Task) { Pending(k) == None && !Unpromoted(k) }

  ghost predicate SameRecords(s: State, s': State)
  {
    && s'.log.installed == s.log.installed && s'.log.dialled == s.log.dialled && s'.log.promoted == s.log.promoted
    && s'.log.closes == s.log.closes && s'.log.closer == s.log.closer && s'.log.displacer == s.log.displacer
  }

  /** Whoever moved carries nothing towards relayConn or a promotion. */
  ghost predicate PlainMove(s: State, s': State)
  {
    && s.nextConn <= s'.nextConn
    && s'.log.installed == s.log.installed && s'.log.dialled == s.log.dialled && s'.log.promoted == s.log.promoted
    && (forall u :: u in s'.tasks ==> (u in s.tasks && s'.tasks[u] == s.tasks[u]) || Plain(s'.tasks[u]))
  }

  /** Whoever moved had and has nothing to close. */
  ghost predicate IdleMove(s: State, s': State)
  {
    && SameRecords(s, s')
    && (forall u :: u in s'.tasks ==> (u in s.tasks && s'.tasks[u] == s.tasks[u]) || Idle(s'.tasks[u]))
    && (forall u :: u in s.tasks && Pending(s.tasks[u]).Some? ==> u in s'.tasks && s'.tasks[u] == s.tasks[u])
  }

  lemma SetupMoves(s: State, t: Tid, k: Task)
    requires FreshTids(s) && t in s.tasks && s.tasks[t] == k && k.InSetup()
    ensures PlainMove(s, StepSetup(s, t, k)) && IdleMove(s, StepSetup(s, t, k))
  {
    SetupPlain(s, t, k);
    SetupIdle(s, t, k);
  }

  lemma SetupPlain(s: State, t: Tid, k: Task)
    requires FreshTids(s) && t in s.tasks && s.tasks[t] == k && k.InSetup()
    ensures PlainMove(s, StepSetup(s, t, k))
  {
  }

  lemma SetupIdle(s: State, t: Tid, k: Task)
    requires FreshTids(s) && t in s.tasks && s.tasks[t] == k && k.InSetup()
    ensures IdleMove(s, StepSetup(s, t, k))
  {
  }

  lemma RetryMoves(s: State, t: Tid, k: Task, ok: bool)
    requires FreshTids(s) && t in s.tasks && s.tasks[t] == k && k.InRetry()
    ensures IdleMove(s, StepRetry(s, t, k, ok))
    ensures !(k.RetryDial? && ok) ==> PlainMove(s, StepRetry(s, t, k, ok))
  {
    RetryIdle(s, t, k, ok);
    if !(k.RetryDial? && ok) { RetryPlain(s, t, k, ok); }
  }

  lemma RetryIdle(s: State, t: Tid, k: Task, ok: bool)
    requires FreshTids(s) && t in s.tasks && s.tasks[t] == k && k.InRetry()
    ensures IdleMove(s, StepRetry(s, t, k, ok))
  {
  }

  lemma RetryPlain(s: State, t: Tid, k: Task, ok: bool)
    requires FreshTids(s) && t in s.tasks && s.tasks[t] == k && k.InRetry() && !(k.RetryDial? && ok)
    ensures PlainMove(s, StepRetry(s, t, k, ok))
  {
  }

  lemma PlaceMoves(s: State, t: Tid, k: Task)
    requires FreshTids(s) && t in s.tasks && s.tasks[t] == k && k.InPlace()
    ensures !k.Install? ==> PlainMove(s, StepPlace(s, t, k))
    ensures k.Activate? || k.Fork? ==> IdleMove(s, StepPlace(s, t, k))
  {
    if k.Fork? { ForkIdle(s, t, k); } else if k.Activate? { ActivateIdle(s, t, k); }
    if !k.Install? { PlacePlain(s, t, k); }
  }

  lemma PlacePlain(s: State, t: Tid, k: Task)
    requires FreshTids(s) && t in s.tasks && s.tasks[t] == k && k.InPlace() && !k.Install?
    ensures PlainMove(s, StepPlace(s, t, k))
  {
  }

  lemma ForkIdle(s: State, t: Tid, k: Task)
    requires FreshTids(s) && t in s.tasks && s.tasks[t] == k && k.Fork?
    ensures IdleMove(s, StepPlace(s, t, k))
  {
  }

  lemma ActivateIdle(s: State, t: Tid, k: Task)
    requires FreshTids(s) && t in s.tasks && s.tasks[t] == k && k.Activate?
    ensures IdleMove(s, StepPlace(s, t, k))
  {
  }

  lemma PromoteMoves(s: State, t: Tid, k: Task, ok: bool)
    requires FreshTids(s) && t in s.tasks && s.tasks[t] == k && k.InPromote()
    ensures k.PromoteCheck? || k.PromoteAbort? ==> PlainMove(s, StepPromote(s, t, k, ok))
    ensures k.PromoteCheck? ==> IdleMove(s, StepPromote(s, t, k, ok))
  {
  }

  lemma ForwardMoves(s: State, t: Tid, k: Task)
    requires FreshTids(s) && t in s.tasks && s.tasks[t] == k && k.InForward()
    ensures PlainMove(s, StepForward(s, t, k)) && IdleMove(s, StepForward(s, t, k))
  {
  }

  lemma FallbackMoves(s: State, t: Tid, k: Task)
    requires FreshTids(s) && t in s.tasks && s.tasks[t] == k && k.InFallback()
    ensures PlainMove(s, StepFallback(s, t, k))
    ensures !k.FallbackTake? && !k.FallbackClose? ==> IdleMove(s, StepFallback(s, t, k))
  {
    match k
    case FallbackRead =>
    case FallbackRestore(c) =>
    case FallbackTake =>
    case FallbackClose(o) =>
    case FallbackClaim =>
  }

  lemma SpawnMoves(s: State, a: Action)
    requires FreshTids(s) && !a.Go?
    ensures IdleMove(s, Step(s, a)) && (!a.InboundDirect? ==> PlainMove(s, Step(s, a)))
  {
  }

  // ------------------------------------------------------ kinds of connection

  lemma KindFrame(s: State, s': State)
    requires KindInv(s) && PlainMove(s, s')
    ensures KindInv(s')
  {
  }

  // A conn that nobody knew starts on its way; `k` is where.
  lemma NewConnKeepsKind(s: State, t: Tid, k: Task, s': State)
    requires KindInv(s) && s'.nextConn == s.nextConn + 1 && s'.tasks == s.tasks[t := k]
    requires s'.log.installed == s.log.installed && s'.log.promoted == s.log.promoted
    requires if k.PromoteCommit?
             then k == PromoteCommit(s.nextConn) && s'.log.dialled == s.log.dialled + {s.nextConn}
             else (k.Install? || k.InboundCommit?) && k.c == s.nextConn && s'.log.dialled == s.log.dialled
    requires forall u :: u in s.tasks && Held(s.tasks[u]).Some? ==> Held(s.tasks[u]).value < s.nextConn
    ensures KindInv(s')
  {
  }

  // `t` lets go of `c`, which nobody else carries, into `installed` or `promoted`.
  lemma InstallKeepsKind(s: State, t: Tid, c: Conn, s': State)
    requires KindInv(s) && s'.nextConn == s.nextConn && t in s'.tasks && s'.tasks == s.tasks[t := s'.tasks[t]]
    requires t in s.tasks && s.tasks[t].Install? && s.tasks[t].c == c < s.nextConn && Plain(s'.tasks[t])
    requires s'.log.installed == s.log.installed + [c]
    requires s'.log.promoted == s.log.promoted && s'.log.dialled == s.log.dialled
    requires forall u :: u in s.tasks && u != t ==> Held(s.tasks[u]) != Some(c)
    ensures KindInv(s')
  {
    InstallRecords(s, c, s');
  }

  lemma InstallRecords(s: State, c: Conn, s': State)
    requires RecordedKinds(s) && s'.nextConn == s.nextConn && c < s.nextConn
    requires c !in s.log.installed && c !in s.log.dialled && c !in s.log.promoted
    requires s'.log.installed == s.log.installed + [c]
    requires s'.log.promoted == s.log.promoted && s'.log.dialled == s.log.dialled
    ensures RecordedKinds(s')
  {
  }

  lemma PromoteKeepsKind(s: State, t: Tid, c: Conn, s': State)
    requires KindInv(s) && s'.nextConn == s.nextConn && t in s'.tasks && s'.tasks == s.tasks[t := s'.tasks[t]]
    requires t in s.tasks && c < s.nextConn && c !in s.log.installed && Plain(s'.tasks[t])
    requires s'.log.installed == s.log.installed
    requires s'.log.promoted == s.log.promoted + {c} && s'.log.dialled == s.log.dialled
    requires forall u :: u in s.tasks && u != t ==> Held(s.tasks[u]) != Some(c)
    ensures KindInv(s')
  {
  }

  lemma SoleHolder(s: State, t: Tid, c: Conn)
    requires OwnInv(s) && t in s.tasks && Held(s.tasks[t]) == Some(c)
    ensures c < s.nextConn && FreshTids(s)
    ensures forall u :: u in s.tasks && u != t ==> Held(s.tasks[u]) != Some(c)
  {
  }

  lemma HoldersKnown(s: State)
    requires OwnInv(s)
    ensures FreshTids(s)
    ensures forall u :: u in s.tasks && Held(s.tasks[u]).Some? ==> Held(s.tasks[u]).value < s.nextConn
  {
  }

  lemma CommitKeepsKind(s: State, t: Tid, k: Task, ok: bool)
    requires OwnInv(s) && KindInv(s) && t in s.tasks && s.tasks[t] == k && (k.PromoteCommit? || k.InboundCommit?)
    ensures KindInv(StepPromote(s, t, k, ok))
  {
    SoleHolder(s, t, k.c);
    if k.InboundCommit? || !s.entry.hasDirectPath {
      PromoteKeepsKind(s, t, k.c, StepPromote(s, t, k, ok));
    } else {
      AbortingKeepsKind(s, t, k.c);
    }
  }

  lemma AbortingKeepsKind(s: State, t: Tid, c: Conn)
    requires KindInv(s) && t in s.tasks && s.tasks[t] == PromoteCommit(c)
    ensures KindInv(Goto(s, t, PromoteAbort(c)))
  {
  }

  lemma StepKeepsKind(s: State, a: Action)
    requires OwnInv(s) && KindInv(s)
    ensures KindInv(Step(s, a))
  {
    HoldersKnown(s);
    var s' := Step(s, a);
    if a.InboundDirect? {
      NewConnKeepsKind(s, s.nextTid, InboundCommit(s.nextConn), s');
    } else if !a.Go? {
      SpawnMoves(s, a);
      KindFrame(s, s');
    } else if a.t in s.tasks {
      GoKeepsKind(s, a.t, s.tasks[a.t], a.ok);
    }
  }

  lemma GoKeepsKind(s: State, t: Tid, k: Task, ok: bool)
    requires OwnInv(s) && KindInv(s) && t in s.tasks && s.tasks[t] == k
    ensures KindInv(StepTask(s, t, k, ok))
  {
    HoldersKnown(s);
    var s' := StepTask(s, t, k, ok);
    if k.PromoteCommit? || k.InboundCommit? { CommitKeepsKind(s, t, k, ok); }
    else if k.PromoteDial? && ok { NewConnKeepsKind(s, t, PromoteCommit(s.nextConn), s'); }
    else if k.RetryDial? && ok { NewConnKeepsKind(s, t, Install(s.nextConn, Retry), s'); }
    else if k.Handshake? && ok { NewConnKeepsKind(s, t, Install(s.nextConn, Incoming), s'); }
    else if k.Install? { SoleHolder(s, t, k.c); InstallKeepsKind(s, t, k.c, s'); }
    else { GoPlain(s, t, k, ok); KindFrame(s, s'); }
  }

  lemma GoPlain(s: State, t: Tid, k: Task, ok: bool)
    requires FreshTids(s) && t in s.tasks && s.tasks[t] == k
    requires !k.PromoteCommit? && !k.InboundCommit? && !k.Install?
    requires !(ok && (k.PromoteDial? || k.RetryDial? || k.Handshake?))
    ensures PlainMove(s, StepTask(s, t, k, ok))
  {
    if k.InSetup() { SetupMoves(s, t, k); }
    else if k.InRetry() { RetryMoves(s, t, k, ok); }
    else if k.InPlace() { PlaceMoves(s, t, k); }
    else if k.InPromote() { PromoteMoves(s, t, k, ok); }
    else if k.InForward() { ForwardMoves(s, t, k); }
    else if k.InFallback() { FallbackMoves(s, t, k); }
  }

  /** Every installed conn is in relayConn, was dropped by setupRelayPeers, or was displaced; no
      two of these hold of one conn. */
  ghost predicate PlaceInv(s: State)
  {
    && (forall c :: c in s.log.installed ==>
          s.entry.relayConn == Some(c) || c in s.log.dropped || c in s.log.displacer)
    && (forall c :: c in s.log.dropped ==> c in s.log.installed && c !in s.log.displacer)
    && (forall c :: c in s.log.displacer ==> c in s.log.installed)
    && (s.entry.relayConn.Some? ==>
          var c := s.entry.relayConn.value;
          c in s.log.installed && c !in s.log.dropped && c !in s.log.displacer)
  }

  lemma SetupKeepsPlace(s: State, t: Tid, k: Task)
    requires OwnInv(s) && KindInv(s) && PlaceInv(s) && t in s.tasks && s.tasks[t] == k && k.InSetup()
    ensures PlaceInv(StepSetup(s, t, k))
  {
  }

  lemma RetryKeepsPlace(s: State, t: Tid, k: Task, ok: bool)
    requires OwnInv(s) && KindInv(s) && PlaceInv(s) && t in s.tasks && s.tasks[t] == k && k.InRetry()
    ensures PlaceInv(StepRetry(s, t, k, ok))
  {
  }

  lemma PlaceKeepsPlace(s: State, t: Tid, k: Task)
    requires OwnInv(s) && KindInv(s) && PlaceInv(s) && t in s.tasks && s.tasks[t] == k && k.InPlace()
    ensures PlaceInv(StepPlace(s, t, k))
  {
  }

  lemma PromoteKeepsPlace(s: State, t: Tid, k: Task, ok: bool)
    requires OwnInv(s) && KindInv(s) && PlaceInv(s) && t in s.tasks && s.tasks[t] == k && k.InPromote()
    ensures PlaceInv(StepPromote(s, t, k, ok))
  {
  }

  lemma ForwardKeepsPlace(s: State, t: Tid, k: Task)
    requires OwnInv(s) && KindInv(s) && PlaceInv(s) && t in s.tasks && s.tasks[t] == k && k.InForward()
    ensures PlaceInv(StepForward(s, t, k))
  {
  }

  lemma FallbackKeepsPlace(s: State, t: Tid, k: Task)
    requires OwnInv(s) && KindInv(s) && PlaceInv(s) && t in s.tasks && s.tasks[t] == k && k.InFallback()
    ensures PlaceInv(StepFallback(s, t, k))
  {
  }

  lemma StepKeepsPlace(s: State, a: Action)
    requires OwnInv(s) && KindInv(s) && PlaceInv(s)
    ensures PlaceInv(Step(s, a))
  {
    if a.Go? && a.t in s.tasks {
      var t, k := a.t, s.tasks[a.t];
      if k.InSetup() { SetupKeepsPlace(s, t, k); }
      else if k.InRetry() { RetryKeepsPlace(s, t, k, a.ok); }
      else if k.InPlace() { PlaceKeepsPlace(s, t, k); }
      else if k.InPromote() { PromoteKeepsPlace(s, t, k, a.ok); }
      else if k.InForward() { ForwardKeepsPlace(s, t, k); }
      else if k.InFallback() { FallbackKeepsPlace(s, t, k); }
    }
  }

  /** Close is called at most once per conn, by the goroutine that displaced it or that dialled it
      in vain; a displaced conn not yet closed is pending with its displacer. */
  ghost predicate CloseInv(s: State)
  {
    CountInv(s) && PendingInv(s) && (forall c :: c in s.log.displacer ==> DisplacedFate(s, c)) && VainInv(s)
  }

  ghost predicate CountInv(s: State)
  {
    && (forall c: Conn :: s.log.closes[c] <= 1)
    && (forall c: Conn :: s.log.closes[c] > 0 ==>
          c in s.log.displacer || (c in s.log.dialled && c !in s.log.promoted))
  }

  ghost predicate PendingInv(s: State)
  {
    forall t :: t in s.tasks && Pending(s.tasks[t]).Some? ==>
      var o := Pending(s.tasks[t]).value;
      o in s.log.displacer && s.log.displacer[o] == t && s.log.closes[o] == 0
  }

  ghost predicate VainInv(s: State)
  {
    forall t :: t in s.tasks && Unpromoted(s.tasks[t]) ==>
      s.log.closes[s.tasks[t].c] == 0 && s.tasks[t].c !in s.log.displacer
  }

  /** A displaced conn is pending with the goroutine that displaced it, or was closed by it. */
  ghost predicate DisplacedFate(s: State, c: Conn)
    requires c in s.log.displacer
  {
    if s.log.closes[c] == 0
    then s.log.displacer[c] in s.tasks && Pending(s.tasks[s.log.displacer[c]]) == Some(c)
    else c in s.log.closer && s.log.closer[c] == s.log.displacer[c]
  }

  lemma CloseFrame(s: State, s': State)
    requires CloseInv(s) && IdleMove(s, s')
    ensures CloseInv(s')
  {
  }

  /** The conn in relayConn becomes pending with `t`. */
  ghost predicate Displacing(s: State, t: Tid, s': State)
  {
    && t in s.tasks && Pending(s.tasks[t]) == None
    && s'.log == Displace(s, t).log.(installed := s'.log.installed)
    && t in s'.tasks && s'.tasks == s.tasks[t := s'.tasks[t]]
    && Pending(s'.tasks[t]) == s.entry.relayConn && !Unpromoted(s'.tasks[t])
    && (s.entry.relayConn.Some? ==>
          s.entry.relayConn.value !in s.log.displacer && s.log.closes[s.entry.relayConn.value] == 0)
  }

  lemma DisplaceKeepsPending(s: State, t: Tid, s': State)
    requires PendingInv(s) && Displacing(s, t, s')
    ensures PendingInv(s')
  {
  }

  lemma DisplaceKeepsFates(s: State, t: Tid, s': State)
    requires (forall c :: c in s.log.displacer ==> DisplacedFate(s, c)) && Displacing(s, t, s')
    ensures forall c :: c in s'.log.displacer ==> DisplacedFate(s', c)
  {
    forall c | c in s'.log.displacer ensures DisplacedFate(s', c) {
      if c in s.log.displacer { assert DisplacedFate(s, c); }
    }
  }

  lemma DisplaceKeepsClose(s: State, t: Tid, s': State)
    requires CloseInv(s) && Displacing(s, t, s')
    requires forall u :: u in s.tasks && Unpromoted(s.tasks[u]) ==> s.entry.relayConn != Some(s.tasks[u].c)
    ensures CloseInv(s')
  {
    DisplaceKeepsPending(s, t, s');
    DisplaceKeepsFates(s, t, s');
  }

  // `t` closes the conn that was pending with it.
  lemma ClosingKeepsClose(s: State, t: Tid, s': State)
    requires CloseInv(s) && t in s.tasks
    requires s'.log == CloseOpt(s, t, Pending(s.tasks[t])).log
    requires t in s'.tasks && s'.tasks == s.tasks[t := s'.tasks[t]] && Idle(s'.tasks[t])
    ensures CloseInv(s')
  {
    if Pending(s.tasks[t]).Some? {
      var o := Pending(s.tasks[t]).value;
      assert forall u :: u in s.tasks && u != t ==> Pending(s.tasks[u]) != Some(o);
      forall c | c in s'.log.displacer ensures DisplacedFate(s', c) {
        assert DisplacedFate(s, c);
      }
    }
  }

  // `t` closes the conn it dialled in vain.
  lemma AbortKeepsClose(s: State, t: Tid, c: Conn)
    requires CloseInv(s) && t in s.tasks && s.tasks[t] == PromoteAbort(c)
    requires c in s.log.dialled && c !in s.log.promoted
    requires forall u :: u in s.tasks && u != t ==> Held(s.tasks[u]) != Some(c)
    ensures CloseInv(Exit(Close(s, t, c), t))
  {
    var s' := Exit(Close(s, t, c), t);
    forall x | x in s'.log.displacer ensures DisplacedFate(s', x) {
      assert DisplacedFate(s, x);
    }
  }

  // `t` settles or records a dialled conn that was never closed.
  lemma DirectKeepsClose(s: State, t: Tid, c: Conn, s': State)
    requires CloseInv(s) && t in s.tasks && Pending(s.tasks[t]) == None
    requires s'.log.closes == s.log.closes && s'.log.closer == s.log.closer && s'.log.displacer == s.log.displacer
    requires s.log.dialled <= s'.log.dialled && s'.log.promoted <= s.log.promoted + {c}
    requires s.log.closes[c] == 0 && c !in s.log.displacer
    requires t in s'.tasks && s'.tasks == s.tasks[t := s'.tasks[t]] && Pending(s'.tasks[t]) == None
    requires Unpromoted(s'.tasks[t]) ==> s'.tasks[t].c == c
    ensures CloseInv(s')
  {
    forall x | x in s'.log.displacer ensures DisplacedFate(s', x) {
      assert DisplacedFate(s, x);
    }
  }

  // A conn outside the installed and the dialled ones has never been closed.
  lemma Unclosed(s: State, c: Conn)
    requires PlaceInv(s) && CloseInv(s) && c !in s.log.installed && (c !in s.log.dialled || c in s.log.promoted)
    ensures s.log.closes[c] == 0 && c !in s.log.displacer
  {
  }

  lemma RelayConnUnclosed(s: State)
    requires KindInv(s) && PlaceInv(s) && CloseInv(s) && s.entry.relayConn.Some?
    ensures s.log.closes[s.entry.relayConn.value] == 0 && s.entry.relayConn.value !in s.log.displacer
    ensures forall u :: u in s.tasks && Unpromoted(s.tasks[u]) ==> s.tasks[u].c != s.entry.relayConn.value
  {
  }

  lemma GoIdle(s: State, t: Tid, k: Task, ok: bool)
    requires FreshTids(s) && t in s.tasks && s.tasks[t] == k
    requires !k.Install? && !k.CloseOld? && !k.FallbackTake? && !k.FallbackClose?
    requires !k.InPromote() || k.PromoteCheck? || (k.PromoteDial? && !ok)
    ensures IdleMove(s, StepTask(s, t, k, ok))
  {
    if k.InSetup() { SetupMoves(s, t, k); }
    else if k.InRetry() { RetryMoves(s, t, k, ok); }
    else if k.InPlace() { PlaceMoves(s, t, k); }
    else if k.InPromote() { PromoteMoves(s, t, k, ok); }
    else if k.InForward() { ForwardMoves(s, t, k); }
    else if k.InFallback() { FallbackMoves(s, t, k); }
  }

  lemma DiallingKeepsClose(s: State, t: Tid)
    requires KindInv(s) && PlaceInv(s) && CloseInv(s) && t in s.tasks && s.tasks[t] == PromoteDial
    ensures CloseInv(StepPromote(s, t, PromoteDial, true))
  {
    Unclosed(s, s.nextConn);
    DirectKeepsClose(s, t, s.nextConn, StepPromote(s, t, PromoteDial, true));
  }

  lemma CommittingKeepsClose(s: State, t: Tid, k: Task, ok: bool)
    requires KindInv(s) && PlaceInv(s) && CloseInv(s) && t in s.tasks && s.tasks[t] == k
    requires k.PromoteCommit? || k.InboundCommit?
    ensures CloseInv(StepPromote(s, t, k, ok))
  {
    if k.InboundCommit? { Unclosed(s, k.c); }
    DirectKeepsClose(s, t, k.c, StepPromote(s, t, k, ok));
  }

  lemma PromotionKeepsClose(s: State, t: Tid, k: Task, ok: bool)
    requires OwnInv(s) && KindInv(s) && PlaceInv(s) && CloseInv(s) && t in s.tasks && s.tasks[t] == k
    requires k.PromoteCommit? || k.InboundCommit? || k.PromoteAbort? || (k.PromoteDial? && ok)
    ensures CloseInv(StepPromote(s, t, k, ok))
  {
    if k.PromoteAbort? {
      SoleHolder(s, t, k.c);
      AbortKeepsClose(s, t, k.c);
    } else if k.PromoteDial? {
      DiallingKeepsClose(s, t);
    } else {
      CommittingKeepsClose(s, t, k, ok);
    }
  }

  lemma TakingKeepsClose(s: State, t: Tid, k: Task, ok: bool)
    requires KindInv(s) && PlaceInv(s) && CloseInv(s) && t in s.tasks && s.tasks[t] == k
    requires k.Install? || k.FallbackTake?
    ensures CloseInv(StepTask(s, t, k, ok))
  {
    if s.entry.relayConn.Some? { RelayConnUnclosed(s); }
    TakingDisplaces(s, t, k, ok);
    DisplaceKeepsClose(s, t, StepTask(s, t, k, ok));
  }

  lemma TakingDisplaces(s: State, t: Tid, k: Task, ok: bool)
    requires t in s.tasks && s.tasks[t] == k && (k.Install? || k.FallbackTake?)
    requires s.entry.relayConn.Some? ==>
               s.entry.relayConn.value !in s.log.displacer && s.log.closes[s.entry.relayConn.value] == 0
    ensures Displacing(s, t, StepTask(s, t, k, ok))
  {
  }

  lemma ClosesPending(s: State, t: Tid, k: Task, ok: bool)
    requires CloseInv(s) && t in s.tasks && s.tasks[t] == k && (k.CloseOld? || k.FallbackClose?)
    ensures CloseInv(StepTask(s, t, k, ok))
  {
    ClosingKeepsClose(s, t, StepTask(s, t, k, ok));
  }

  lemma IdleKeepsClose(s: State, t: Tid, k: Task, ok: bool)
    requires OwnInv(s) && CloseInv(s) && t in s.tasks && s.tasks[t] == k
    requires !k.Install? && !k.CloseOld? && !k.FallbackTake? && !k.FallbackClose?
    requires !k.InPromote() || k.PromoteCheck? || (k.PromoteDial? && !ok)
    ensures CloseInv(StepTask(s, t, k, ok))
  {
    HoldersKnown(s);
    GoIdle(s, t, k, ok);
    CloseFrame(s, StepTask(s, t, k, ok));
  }

  lemma GoKeepsClose(s: State, t: Tid, k: Task, ok: bool)
    requires OwnInv(s) && KindInv(s) && PlaceInv(s) && CloseInv(s) && t in s.tasks && s.tasks[t] == k
    ensures CloseInv(StepTask(s, t, k, ok))
  {
    if k.Install? || k.FallbackTake? {
      TakingKeepsClose(s, t, k, ok);
    } else if k.CloseOld? || k.FallbackClose? {
      ClosesPending(s, t, k, ok);
    } else if k.PromoteCommit? || k.InboundCommit? || k.PromoteAbort? || (k.PromoteDial? && ok) {
      PromotionKeepsClose(s, t, k, ok);
    } else {
      IdleKeepsClose(s, t, k, ok);
    }
  }

  lemma StepKeepsClose(s: State, a: Action)
    requires OwnInv(s) && KindInv(s) && PlaceInv(s) && CloseInv(s)
    ensures CloseInv(Step(s, a))
  {
    if !a.Go? {
      HoldersKnown(s);
      SpawnMoves(s, a);
      CloseFrame(s, Step(s, a));
    } else if a.t in s.tasks {
      GoKeepsClose(s, a.t, s.tasks[a.t], a.ok);
    }
  }

  lemma {:induction false} RunKeepsRelay(role: Role, actions: seq<Action>)
    ensures var s := Run(role, actions); KindInv(s) && PlaceInv(s) && CloseInv(s)
    decreases |actions|
  {
    if actions == [] {
    } else {
      var init, a := actions[..|actions| - 1], actions[|actions| - 1];
      RunKeepsOwn(role, init);
      RunKeepsRelay(role, init);
      StepKeepsKind(Run(role, init), a);
      StepKeepsPlace(Run(role, init), a);
      StepKeepsClose(Run(role, init), a);
    }
  }

  /** Relay conn ownership, over all runs: the conn in relayConn has never been closed by the
      manager; each conn is installed at most once; each conn that was installed and is no longer
      there was either dropped unclosed by setupRelayPeers, or closed exactly once by the goroutine
      that displaced it, or is about to be closed by that goroutine; nothing is closed twice. */
  lemma {:induction false} RelayConnOwnership(role: Role, actions: seq<Action>)
    ensures var s := Run(role, actions);
            && (s.entry.relayConn.Some? ==> s.log.closes[s.entry.relayConn.value] == 0)
            && (forall i, j :: 0 <= i < j < |s.log.installed| ==> s.log.installed[i] != s.log.installed[j])
            && (forall c :: c in s.log.installed && s.entry.relayConn != Some(c) ==>
                  if c in s.log.dropped then s.log.closes[c] == 0
                  else c in s.log.displacer && DisplacedFate(s, c))
            && (forall c: Conn :: s.log.closes[c] <= 1)
  {
    RunKeepsRelay(role, actions);
  }

  // ------------------------------------------------------ fate of dialled conns

  ghost predicate Undecided(s: State, c: Conn)
  {
    c in s.log.holder && s.log.holder[c] in s.tasks &&
    Unpromoted(s.tasks[s.log.holder[c]]) && Held(s.tasks[s.log.holder[c]]) == Some(c)
  }

  ghost predicate FateInv(s: State)
  {
    forall c :: c in s.log.dialled ==> c in s.log.promoted || s.log.closes[c] > 0 || Undecided(s, c)
  }

  lemma SetupKeepsFate(s: State, t: Tid, k: Task)
    requires OwnInv(s) && FateInv(s) && t in s.tasks && s.tasks[t] == k && k.InSetup()
    ensures FateInv(StepSetup(s, t, k))
  {
  }

  lemma RetryKeepsFate(s: State, t: Tid, k: Task, ok: bool)
    requires OwnInv(s) && FateInv(s) && t in s.tasks && s.tasks[t] == k && k.InRetry()
    ensures FateInv(StepRetry(s, t, k, ok))
  {
  }

  lemma ForkKeepsFate(s: State, t: Tid, k: Task)
    requires OwnInv(s) && FateInv(s) && t in s.tasks && s.tasks[t] == k && k.Fork?
    ensures FateInv(StepPlace(s, t, k))
  {
  }

  lemma PlaceKeepsFate(s: State, t: Tid, k: Task)
    requires OwnInv(s) && FateInv(s) && t in s.tasks && s.tasks[t] == k && k.InPlace()
    ensures FateInv(StepPlace(s, t, k))
  {
    if k.Fork? { ForkKeepsFate(s, t, k); }
  }

  lemma PromoteKeepsFate(s: State, t: Tid, k: Task, ok: bool)
    requires OwnInv(s) && FateInv(s) && t in s.tasks && s.tasks[t] == k && k.InPromote()
    ensures FateInv(StepPromote(s, t, k, ok))
  {
  }

  lemma ForwardKeepsFate(s: State, t: Tid, k: Task)
    requires OwnInv(s) && FateInv(s) && t in s.tasks && s.tasks[t] == k && k.InForward()
    ensures FateInv(StepForward(s, t, k))
  {
  }

  lemma FallbackKeepsFate(s: State, t: Tid, k: Task)
    requires OwnInv(s) && FateInv(s) && t in s.tasks && s.tasks[t] == k && k.InFallback()
    ensures FateInv(StepFallback(s, t, k))
  {
    FallbackLeavesDials(s, t, k);
    FateFrame(s, StepFallback(s, t, k), t);
  }

  // The step of `t`, which has no dialled conn in hand, closes at most more.
  lemma FateFrame(s: State, s': State, t: Tid)
    requires FateInv(s) && t in s.tasks && !Unpromoted(s.tasks[t])
    requires s'.log.dialled == s.log.dialled && s'.log.promoted == s.log.promoted && s'.log.holder == s.log.holder
    requires s.log.closes <= s'.log.closes
    requires forall u :: u in s.tasks && u != t ==> u in s'.tasks && s'.tasks[u] == s.tasks[u]
    ensures FateInv(s')
  {
    forall c | c in s'.log.dialled ensures c in s'.log.promoted || s'.log.closes[c] > 0 || Undecided(s', c) {
      if Undecided(s, c) { assert s.log.holder[c] != t; }
    }
  }

  lemma FallbackLeavesDials(s: State, t: Tid, k: Task)
    requires t in s.tasks && s.tasks[t] == k && k.InFallback()
    ensures var s' := StepFallback(s, t, k);
            && s'.log.dialled == s.log.dialled && s'.log.promoted == s.log.promoted && s'.log.holder == s.log.holder
            && s.log.closes <= s'.log.closes
            && (s'.tasks == s.tasks - {t} || (t in s'.tasks && s'.tasks == s.tasks[t := s'.tasks[t]]))
  {
  }

  lemma StepKeepsFate(s: State, a: Action)
    requires OwnInv(s) && KindInv(s) && FateInv(s)
    ensures FateInv(Step(s, a))
  {
    if a.Go? && a.t in s.tasks {
      var t, k := a.t, s.tasks[a.t];
      if k.InSetup() { SetupKeepsFate(s, t, k); }
      else if k.InRetry() { RetryKeepsFate(s, t, k, a.ok); }
      else if k.InPlace() { PlaceKeepsFate(s, t, k); }
      else if k.InPromote() { PromoteKeepsFate(s, t, k, a.ok); }
      else if k.InForward() { ForwardKeepsFate(s, t, k); }
      else if k.InFallback() { FallbackKeepsFate(s, t, k); }
    }
  }

  lemma {:induction false} RunKeepsFate(role: Role, actions: seq<Action>)
    ensures FateInv(Run(role, actions))
    decreases |actions|
  {
    if actions == [] {
    } else {
      var init, a := actions[..|actions| - 1], actions[|actions| - 1];
      RunKeepsOwn(role, init);
      RunKeepsRelay(role, init);
      RunKeepsFate(role, init);
      StepKeepsFate(Run(role, init), a);
    }
  }

  /** Every conn tryPromotePath dials is promoted, or closed exactly once, or still in the hands of
      the goroutine that dialled it; never two of these. */
  lemma {:induction false} DialledFate(role: Role, actions: seq<Action>, c: Conn)
    requires c in Run(role, actions).log.dialled
    ensures var s := Run(role, actions);
            && (c in s.log.promoted || s.log.closes[c] == 1 || Undecided(s, c))
            && !(c in s.log.promoted && s.log.closes[c] > 0)
            && (Undecided(s, c) ==> c !in s.log.promoted && s.log.closes[c] == 0)
  {
    RunKeepsRelay(role, actions);
    RunKeepsFate(role, actions);
  }
}

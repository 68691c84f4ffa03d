/** Path switching of internal/manager/manager.go for one registered peer, as a transition
    system: any number of goroutines, each a program counter, interleaved at the granularity of
    their critical sections. Dials, handshakes and connection errors are arbitrary choices. */
module PathSwitch {
  import opened Basics
  import opened PeerEntries

  type Tid = nat

  datatype Role = Client | Proxy

  /** On whose behalf a connection is being put in place. */
  datatype Origin = Retry | Incoming | Direct

  datatype Task =
    | SetupClear                                       // setupRelayPeers, before it clears relayConn
    | SetupClaim                                       // ... before it claims the retry flag
    | RetrySpawn                                       // flag claimed, `go retryConnectPeer` comes next
    | RetryCheck                                       // retryConnectPeer, top of its loop
    | RetryDial                                        // ... dialling and handshaking, or backing off
    | RetryReset                                       // ... decided to return, deferred reset comes next
    | Handshake                                        // handleIncoming, handshaking
    | Install(c: Conn, who: Origin)                     // holds a fresh relay conn
    | CloseOld(c: Conn, prev: Option<Conn>, who: Origin) // installed it, must close what it displaced
    | Activate(c: Conn, who: Origin)                    // SetConn comes next
    | Fork(c: Conn, who: Origin)                        // `go forward...` comes next
    | RelayForward(c: Conn)                            // forwardConnToTUN, reading
    | PromoteCheck | PromoteDial                       // tryPromotePath
    | PromoteCommit(c: Conn)                           // ... dialled, recheck comes next
    | PromoteAbort(c: Conn)                            // ... lost, must close its conn
    | InboundCommit(c: Conn)                           // handleDirectConnect
    | DirectForward(c: Conn)                           // forwardDirectConnToTUN, reading
    | DirectFallback(c: Conn)                          // ... read failed and ClearConnIf done, fallbackToRelay comes next
    | FallbackRead                                     // proxy: look at relayConn
    | FallbackRestore(c: Conn)                         // proxy: SetConn(liveRelayConn) comes next
    | FallbackTake                                     // client: take relayConn
    | FallbackClose(prev: Option<Conn>)                // client: close it
    | FallbackClaim                                    // client: claim the retry flag
  {
    predicate InSetup() { SetupClear? || SetupClaim? || RetrySpawn? }
    predicate InRetry() { RetryCheck? || RetryDial? || RetryReset? }
    predicate InPlace() { Install? || CloseOld? || Activate? || Fork? }
    predicate InPromote() { PromoteCheck? || PromoteDial? || PromoteCommit? || PromoteAbort? || InboundCommit? }
    predicate InForward() { RelayForward? || DirectForward? || DirectFallback? }
    predicate InFallback() { FallbackRead? || FallbackRestore? || FallbackTake? || FallbackClose? || FallbackClaim? }
  }

  /** What has happened so far. */
  datatype History = History(
    holder: map<Conn, Tid>,            // the goroutine that carries or forwards a conn
    retrier: Option<Tid>,              // the goroutine that owns the retry flag
    promotedLast: Option<Conn>,        // the conn of the latest promotion
    promoted: set<Conn>,               // every promoted conn
    dialled: set<Conn>,                // every conn tryPromotePath has dialled
    activated: seq<Conn>,              // SetConn calls, in order
    cleared: set<Conn>,                // conns whose forwarder has done its ClearConnIf
    installed: seq<Conn>,              // installs into relayConn, in order
    dropped: set<Conn>,                // displaced by setupRelayPeers, never closed
    displacer: map<Conn, Tid>,         // who displaced a conn and has to close it
    closes: multiset<Conn>,            // Close calls of the manager
    closer: map<Conn, Tid>)            // who closed a conn last

  datatype State = State(role: Role, entry: Entry, tasks: map<Tid, Task>, nextTid: Tid, nextConn: Conn, log: History)

  function Init(role: Role): State
  {
    State(role, Entry(None, false, false, None), map[], 0, 0,
          History(map[], None, None, {}, {}, [], {}, [], {}, map[], multiset{}, map[]))
  }

  datatype Action =
    | Reconnect                  // relayConnectLoop reaches setupRelayPeers
    | IncomingSession            // acceptLoop starts handleIncoming
    | Candidate                  // a validated candidate starts tryPromotePath (client only)
    | InboundDirect              // an inbound CONNECT-IP starts handleDirectConnect
    | Go(t: Tid, ok: bool)       // goroutine t takes its next step; `ok` decides what is open

  function Goto(s: State, t: Tid, k: Task): State { s.(tasks := s.tasks[t := k]) }
  function Exit(s: State, t: Tid): State { s.(tasks := s.tasks - {t}) }

  function Spawn(s: State, k: Task): State
  {
    s.(tasks := s.tasks[s.nextTid := k], nextTid := s.nextTid + 1)
  }

  /** A connection comes into being in the hands of `t`. */
  function NewConn(s: State, t: Tid): State
  {
    s.(nextConn := s.nextConn + 1, log := s.log.(holder := s.log.holder[s.nextConn := t]))
  }

  /** The retry flag is taken by `t`, which will launch retryConnectPeer. */
  function Claim(s: State, t: Tid): State
  {
    s.(entry := ClaimRetry(s.entry), log := s.log.(retrier := Some(t)))
  }

  function Close(s: State, t: Tid, c: Conn): State
  {
    s.(log := s.log.(closes := s.log.closes + multiset{c}, closer := s.log.closer[c := t]))
  }

  function CloseOpt(s: State, t: Tid, c: Option<Conn>): State
  {
    if c.Some? then Close(s, t, c.value) else s
  }

  /** The conn in relayConn, if any, now has to be closed by `t`. */
  function Displace(s: State, t: Tid): State
  {
    match s.entry.relayConn
    case None => s
    case Some(c) => s.(log := s.log.(displacer := s.log.displacer[c := t]))
  }

  // ------------------------------------------------- steps, goroutine by goroutine

  function StepSetup(s: State, t: Tid, k: Task): State
    requires k.InSetup()
  {
    match k
    case SetupClear =>
      var s' := s.(entry := ForgetRelay(s.entry),
                   log := match s.entry.relayConn
                          case None => s.log
                          case Some(c) => s.log.(dropped := s.log.dropped + {c}));
      if s.role == Client then Goto(s', t, SetupClaim) else Exit(s', t)
    case SetupClaim =>
      if s.entry.retryingConn then Exit(s, t)
      else Goto(Claim(s, t), t, RetrySpawn)
    case RetrySpawn => Spawn(Exit(s.(log := s.log.(retrier := Some(s.nextTid))), t), RetryCheck)
  }

  /** retryConnectPeer; `ok` at the check means the context is not cancelled, at the dial that
      the relay is up and the handshake succeeded. */
  function StepRetry(s: State, t: Tid, k: Task, ok: bool): State
    requires k.InRetry()
  {
    match k
    case RetryCheck =>
      if !ok || s.role != Client || s.entry.hasDirectPath || s.entry.relayConn.Some? then Goto(s, t, RetryReset)
      else Goto(s, t, RetryDial)
    case RetryDial =>
      if !ok then Goto(s, t, RetryCheck)
      else Goto(NewConn(s, t), t, Install(s.nextConn, Retry))
    case RetryReset => Exit(s.(entry := ReleaseRetry(s.entry), log := s.log.(retrier := None)), t)
  }

  /** From a handshaken relay conn, or a committed direct one, to its running forwarder. */
  function StepPlace(s: State, t: Tid, k: Task): State
    requires k.InPlace()
  {
    match k
    case Install(c, who) =>
      Goto(Displace(s, t).(entry := InstallRelay(s.entry, c),
                           log := Displace(s, t).log.(installed := s.log.installed + [c])),
           t, CloseOld(c, s.entry.relayConn, who))
    case CloseOld(c, o, who) => Goto(CloseOpt(s, t, o), t, Activate(c, who))
    case Activate(c, who) =>
      Goto(s.(entry := SetActive(s.entry, c), log := s.log.(activated := s.log.activated + [c])), t, Fork(c, who))
    case Fork(c, who) =>
      var s1 := s.(log := s.log.(holder := s.log.holder[c := s.nextTid]));
      var s2 := if who == Retry then Goto(s1, t, RetryReset) else Exit(s1, t);
      Spawn(s2, if who == Direct then DirectForward(c) else RelayForward(c))
  }

  function StepPromote(s: State, t: Tid, k: Task, ok: bool): State
    requires k.InPromote()
  {
    match k
    case PromoteCheck => if s.entry.hasDirectPath then Exit(s, t) else Goto(s, t, PromoteDial)
    case PromoteDial =>
      if !ok then Exit(s, t)
      else
        var s1 := NewConn(s, t);
        Goto(s1.(log := s1.log.(dialled := s1.log.dialled + {s.nextConn})), t, PromoteCommit(s.nextConn))
    case PromoteCommit(c) =>
      if s.entry.hasDirectPath then Goto(s, t, PromoteAbort(c)) else Goto(Promote(s, c), t, Activate(c, Direct))
    case PromoteAbort(c) => Exit(Close(s, t, c), t)
    case InboundCommit(c) => Goto(Promote(s, c), t, Activate(c, Direct))
  }

  function Promote(s: State, c: Conn): State
  {
    s.(entry := MarkDirect(s.entry),
       log := s.log.(promotedLast := Some(c), promoted := s.log.promoted + {c}))
  }

  function ClearConn(s: State, c: Conn): State
  {
    s.(entry := ClearIf(s.entry, c), log := s.log.(cleared := s.log.cleared + {c}))
  }

  /** The exit paths of the two forwarders, up to the first section of fallbackToRelay. */
  function StepForward(s: State, t: Tid, k: Task): State
    requires k.InForward()
  {
    match k
    case RelayForward(c) => Exit(ClearConn(s, c), t)
    case DirectForward(c) => Goto(ClearConn(s, c), t, DirectFallback(c))
    case DirectFallback(c) =>
      if !s.entry.hasDirectPath then Exit(s, t)
      else Goto(s.(entry := UnmarkDirect(s.entry)), t, if s.role == Client then FallbackTake else FallbackRead)
  }

  /** The rest of fallbackToRelay. */
  function StepFallback(s: State, t: Tid, k: Task): State
    requires k.InFallback()
  {
    match k
    case FallbackRead =>
      (match s.entry.relayConn
       case None => Exit(s, t)
       case Some(c) => Goto(s, t, FallbackRestore(c)))
    case FallbackRestore(c) =>
      Exit(s.(entry := SetActive(s.entry, c), log := s.log.(activated := s.log.activated + [c])), t)
    case FallbackTake => Goto(Displace(s, t).(entry := ForgetRelay(s.entry)), t, FallbackClose(s.entry.relayConn))
    case FallbackClose(o) => Goto(CloseOpt(s, t, o), t, FallbackClaim)
    case FallbackClaim =>
      if s.entry.retryingConn then Exit(s, t)
      else Goto(Claim(s, t), t, RetrySpawn)
  }

  function StepTask(s: State, t: Tid, k: Task, ok: bool): State
  {
    if k.InSetup() then StepSetup(s, t, k)
    else if k.InRetry() then StepRetry(s, t, k, ok)
    else if k.InPlace() then StepPlace(s, t, k)
    else if k.InPromote() then StepPromote(s, t, k, ok)
    else if k.Handshake? then
      if !ok then Exit(s, t) else Goto(NewConn(s, t), t, Install(s.nextConn, Incoming))
    else if k.InForward() then StepForward(s, t, k)
    else StepFallback(s, t, k)
  }

  /** One atomic step; an action that is not possible leaves the state as it is. */
  function Step(s: State, a: Action): State
  {
    match a
    case Reconnect => Spawn(s, SetupClear)
    case IncomingSession => Spawn(s, Handshake)
    case Candidate => if s.role == Client then Spawn(s, PromoteCheck) else s
    case InboundDirect => Spawn(NewConn(s, s.nextTid), InboundCommit(s.nextConn))
    case Go(t, ok) => if t in s.tasks then StepTask(s, t, s.tasks[t], ok) else s
  }

  function Run(role: Role, actions: seq<Action>): State
  {
    if actions == [] then Init(role)
    else Step(Run(role, actions[..|actions| - 1]), actions[|actions| - 1])
  }
}

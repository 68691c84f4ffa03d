/** The life of one relay connection: `relayConnectLoop` of internal/manager/manager.go driving
    `Reset`, `Connect` and `IsConnected` of internal/h2proxy/proxy.go, epoch after epoch. */
module RelayLink {
  import opened Basics
  import Sessions

  type Epoch = nat
  /** A `connectedCh`, by order of creation. */
  type Signal = nat

  /** relayConnectLoop. Times are in seconds. */
  datatype Loop =
    | Top                    // about to Reset, unless this is the first round
    | Launch                 // about to start Connect
    | Waiting                // the first select
    | Setup                  // connected: setupRelayPeers, then reset the backoff
    | Draining               // waiting for the disconnection
    | Backoff                // the sleep before the next round
    | Stopped                // context cancelled

  /** Connect, run by a goroutine of its own. */
  datatype Connect =
    | Dialling
    | StoreWriter
    | LoadSignal
    | CloseSignal(ch: Signal)
    | Reading
    | ClearWriter
    | CloseSessions
    | Reporting              // about to send on connectDone

  datatype State = State(
    loop: Loop, first: bool, backoff: nat,
    epoch: Epoch,                      // the number of Connect calls so far
    running: map<Epoch, Connect>,      // the Connect calls that have not returned
    done: set<Epoch>,                  // results in connectDone, not yet received
    writer: Option<Epoch>,             // p.writer, by the Connect that stored it
    signal: Signal,                    // p.connectedCh
    closes: multiset<Signal>,          // close(connectedCh) calls
    sess: Sessions.State)

  const INIT := State(Top, true, 1, 0, map[], {}, None, 0, multiset{}, Sessions.INIT)

  const MAX_BACKOFF: nat := 30

  datatype Action =
    | LoopStep(cancelled: bool, other: bool)     // `other`: the other ready case of a select is taken
    | ConnectStep(e: Epoch, ok: bool)
    | SessionStep(a: Sessions.Action)

  function Grow(backoff: nat): nat { if backoff < MAX_BACKOFF then 2 * backoff else backoff }

  predicate Signalled(s: State) { s.closes[s.signal] > 0 }

  function StepLoop(s: State, cancelled: bool, other: bool): State
  {
    match s.loop
    case Top =>
      if s.first then s.(loop := Launch, first := false)
      else s.(loop := Launch, signal := s.signal + 1)
    case Launch =>
      s.(loop := Waiting, epoch := s.epoch + 1, running := s.running[s.epoch + 1 := Dialling])
    case Waiting =>
      if cancelled then s.(loop := Stopped)
      else if s.epoch in s.done && !(other && Signalled(s)) then s.(loop := Backoff, done := s.done - {s.epoch})
      else if Signalled(s) then s.(loop := Setup)
      else s
    case Setup => s.(loop := Draining, backoff := 1)
    case Draining =>
      if cancelled then s.(loop := Stopped)
      else if s.epoch in s.done then s.(loop := Backoff, done := s.done - {s.epoch})
      else s
    case Backoff => if cancelled then s.(loop := Stopped) else s.(loop := Top, backoff := Grow(s.backoff))
    case Stopped => s
  }

  function GotoC(s: State, e: Epoch, c: Connect): State { s.(running := s.running[e := c]) }

  function StepConnect(s: State, e: Epoch, c: Connect, ok: bool): State
  {
    match c
    case Dialling => GotoC(s, e, if ok then StoreWriter else Reporting)
    case StoreWriter => GotoC(s.(writer := Some(e)), e, LoadSignal)
    case LoadSignal => GotoC(s, e, CloseSignal(s.signal))
    case CloseSignal(ch) => GotoC(s.(closes := s.closes + multiset{ch}), e, Reading)
    case Reading => GotoC(s, e, ClearWriter)
    case ClearWriter => GotoC(s.(writer := None), e, CloseSessions)
    case CloseSessions => GotoC(s.(sess := Sessions.Step(s.sess, Sessions.CloseAll)), e, Reporting)
    case Reporting => s.(running := s.running - {e}, done := s.done + {e})
  }

  function Step(s: State, a: Action): State
  {
    match a
    case LoopStep(cancelled, other) => StepLoop(s, cancelled, other)
    case ConnectStep(e, ok) => if e in s.running then StepConnect(s, e, s.running[e], ok) else s
    case SessionStep(x) => s.(sess := Sessions.Step(s.sess, x))
  }

  function Run(actions: seq<Action>): State
  {
    if actions == [] then INIT else Step(Run(actions[..|actions| - 1]), actions[|actions| - 1])
  }

  // ------------------------------------------------------------------ epochs

  /** The loop is between launching a Connect and receiving its result. */
  predicate InRound(l: Loop) { l.Waiting? || l.Setup? || l.Draining? }

  predicate HasWriter(c: Connect) { c.LoadSignal? || c.CloseSignal? || c.Reading? || c.ClearWriter? }

  predicate Unsignalled(c: Connect) { c.Dialling? || c.StoreWriter? || c.LoadSignal? || c.CloseSignal? }

  ghost predicate EpochInv(s: State)
  {
    && (forall e :: e in s.running ==> e == s.epoch && e !in s.done)
    && (forall e :: e in s.done ==> e == s.epoch)
    && (s.running != map[] || s.done != {} ==> InRound(s.loop) || s.loop.Stopped?)
    && (s.first ==> s.loop.Top?)
    && (forall c: Signal :: s.closes[c] <= 1)
    && (forall c: Signal :: s.closes[c] > 0 ==> c <= s.signal)
    && (s.loop.Launch? || (s.loop.Top? && s.first) ==> s.closes[s.signal] == 0)
    && (forall e :: e in s.running && Unsignalled(s.running[e]) ==> s.closes[s.signal] == 0)
    && (forall e :: e in s.running && s.running[e].CloseSignal? ==> s.running[e].ch == s.signal)
    && (forall e :: e in s.running && HasWriter(s.running[e]) ==> s.writer == Some(e))
    && (s.writer.Some? ==> s.writer.value in s.running && HasWriter(s.running[s.writer.value]))
  }

  lemma LoopKeepsEpochs(s: State, cancelled: bool, other: bool)
    requires EpochInv(s)
    ensures EpochInv(StepLoop(s, cancelled, other))
  {
  }

  lemma SignalKeepsEpochs(s: State, e: Epoch, ok: bool)
    requires EpochInv(s) && e in s.running && s.running[e].CloseSignal?
    ensures EpochInv(StepConnect(s, e, s.running[e], ok))
  {
  }

  lemma ReportKeepsEpochs(s: State, e: Epoch, ok: bool)
    requires EpochInv(s) && e in s.running && s.running[e].Reporting?
    ensures EpochInv(StepConnect(s, e, s.running[e], ok))
  {
  }

  lemma WriterKeepsEpochs(s: State, e: Epoch, ok: bool)
    requires EpochInv(s) && e in s.running && (s.running[e].StoreWriter? || s.running[e].ClearWriter?)
    ensures EpochInv(StepConnect(s, e, s.running[e], ok))
  {
  }

  lemma ConnectKeepsEpochs(s: State, e: Epoch, ok: bool)
    requires EpochInv(s) && e in s.running
    ensures EpochInv(StepConnect(s, e, s.running[e], ok))
  {
    match s.running[e]
    case CloseSignal(_) => SignalKeepsEpochs(s, e, ok);
    case Reporting => ReportKeepsEpochs(s, e, ok);
    case StoreWriter => WriterKeepsEpochs(s, e, ok);
    case ClearWriter => WriterKeepsEpochs(s, e, ok);
    case _ =>
  }

  lemma StepKeepsEpochs(s: State, a: Action)
    requires EpochInv(s)
    ensures EpochInv(Step(s, a))
  {
    match a
    case LoopStep(cancelled, other) => LoopKeepsEpochs(s, cancelled, other);
    case ConnectStep(e, ok) => if e in s.running { ConnectKeepsEpochs(s, e, ok); }
    case SessionStep(x) =>
  }

  lemma {:induction false} RunKeepsEpochs(actions: seq<Action>)
    ensures EpochInv(Run(actions))
    decreases |actions|
  {
    if actions == [] {
    } else {
      RunKeepsEpochs(actions[..|actions| - 1]);
      StepKeepsEpochs(Run(actions[..|actions| - 1]), actions[|actions| - 1]);
    }
  }

  /** Across any sequence of failures, successes, instant drops and cancellation: at most one
      Connect runs, every connectedCh is closed at most once, and a stored writer belongs to the
      Connect that is running, between its store and its cleanup. */
  lemma {:induction false} OneConnectAtATime(actions: seq<Action>)
    ensures var s := Run(actions);
            && |s.running| <= 1
            && (forall c: Signal :: s.closes[c] <= 1)
            && (s.writer.Some? ==> s.running.Keys == {s.writer.value} && HasWriter(s.running[s.writer.value]))
  {
    RunKeepsEpochs(actions);
    var s := Run(actions);
    assert s.running.Keys <= {s.epoch};
    if s.running.Keys != {} {
      assert s.running.Keys == {s.epoch};
    }
    assert |s.running| == |s.running.Keys|;
  }

  /** IsConnected: the signal is closed and a writer is stored. */
  predicate IsConnected(s: State) { Signalled(s) && s.writer.Some? }

  /** IsConnected tells the truth about the current epoch: it holds exactly while the running
      Connect reads its stream or has just stopped reading. */
  lemma {:induction false} ConnectedMeansReading(actions: seq<Action>)
    ensures var s := Run(actions);
            IsConnected(s) <==> s.epoch in s.running && (s.running[s.epoch].Reading? || s.running[s.epoch].ClearWriter?)
  {
    RunKeepsSignal(actions);
    RunKeepsEpochs(actions);
  }

  // A Connect that reads or cleans up has closed the current signal.
  ghost predicate SignalInv(s: State)
  {
    forall e :: e in s.running && (s.running[e].Reading? || s.running[e].ClearWriter?) ==> s.closes[s.signal] > 0
  }

  lemma StepKeepsSignal(s: State, a: Action)
    requires EpochInv(s) && SignalInv(s)
    ensures SignalInv(Step(s, a))
  {
  }

  lemma {:induction false} RunKeepsSignal(actions: seq<Action>)
    ensures SignalInv(Run(actions))
    decreases |actions|
  {
    if actions == [] {
    } else {
      RunKeepsSignal(actions[..|actions| - 1]);
      RunKeepsEpochs(actions[..|actions| - 1]);
      StepKeepsSignal(Run(actions[..|actions| - 1]), actions[|actions| - 1]);
    }
  }

  // The link touches the sessions only when a Connect cleans up.
  lemma LinkAndSessions(s: State, e: Epoch, c: Connect, ok: bool, cancelled: bool, other: bool)
    ensures StepConnect(s, e, c, ok).sess == if c.CloseSessions? then Sessions.Step(s.sess, Sessions.CloseAll) else s.sess
    ensures StepLoop(s, cancelled, other).sess == s.sess
  {
  }

  lemma StepKeepsSessions(s: State, a: Action)
    requires Sessions.TableInv(s.sess.table)
    ensures Sessions.TableInv(Step(s, a).sess.table)
  {
    match a
    case SessionStep(x) => Sessions.StepKeepsTable(s.sess, x);
    case ConnectStep(e, ok) =>
      if e in s.running {
        LinkAndSessions(s, e, s.running[e], ok, false, false);
        Sessions.StepKeepsTable(s.sess, Sessions.CloseAll);
      }
    case LoopStep(cancelled, other) => LinkAndSessions(s, 0, Dialling, false, cancelled, other);
  }

  lemma {:induction false} RunKeepsSessions(actions: seq<Action>)
    ensures Sessions.TableInv(Run(actions).sess.table)
    decreases |actions|
  {
    if actions == [] {
    } else {
      RunKeepsSessions(actions[..|actions| - 1]);
      StepKeepsSessions(Run(actions[..|actions| - 1]), actions[|actions| - 1]);
    }
  }

  /** Every session mapped when a Connect cleans up is closed by that step, and none is left. */
  lemma {:induction false} CleanupClosesSessions(actions: seq<Action>, e: Epoch)
    requires e in Run(actions).running && Run(actions).running[e].CloseSessions?
    ensures var b := Run(actions).sess.table;
            var b' := Step(Run(actions), ConnectStep(e, true)).sess.table;
            && b'.sessions == map[] && |b'.conns| == |b.conns|
            && (forall sid :: sid in b.sessions ==> b.sessions[sid] < |b'.conns| && b'.conns[b.sessions[sid]].live.closed)
            && (forall c :: 0 <= c < |b.conns| && c !in b.sessions.Values ==> b'.conns[c] == b.conns[c])
  {
    RunKeepsSessions(actions);
    CleanupCloses(Run(actions), e);
  }

  lemma CleanupCloses(s: State, e: Epoch)
    requires Sessions.TableInv(s.sess.table) && e in s.running && s.running[e].CloseSessions?
    ensures var b, b' := s.sess.table, Step(s, ConnectStep(e, true)).sess.table;
            && b'.sessions == map[] && |b'.conns| == |b.conns|
            && (forall sid :: sid in b.sessions ==> b.sessions[sid] < |b'.conns| && b'.conns[b.sessions[sid]].live.closed)
            && (forall c :: 0 <= c < |b.conns| && c !in b.sessions.Values ==> b'.conns[c] == b.conns[c])
  {
    LinkAndSessions(s, e, CloseSessions, true, false, false);
    Sessions.RemoveAllCloses(s.sess.table);
    assert Step(s, ConnectStep(e, true)).sess.table == Sessions.RemoveAll(s.sess.table);
  }

  // ----------------------------------------------- IsConnected in three moments

  /** What IsConnected returns when `ch` was the signal loaded, `tested` the state in which it was
      tested and `s` the one in which the writer was looked at. */
  predicate Answer(ch: Signal, tested: State, s: State) { tested.closes[ch] > 0 && s.writer.Some? }

  lemma StepKeepsCloses(s: State, a: Action)
    ensures s.closes <= Step(s, a).closes
  {
  }

  lemma {:induction false} ClosesGrow(actions: seq<Action>, i: nat)
    requires i <= |actions|
    ensures Run(actions[..i]).closes <= Run(actions).closes
    decreases |actions|
  {
    if i == |actions| {
      assert actions[..i] == actions;
    } else {
      var init := actions[..|actions| - 1];
      assert init[..i] == actions[..i];
      ClosesGrow(init, i);
      StepKeepsCloses(Run(init), actions[|actions| - 1]);
    }
  }

  /** IsConnected loads the signal, tests it and looks at the writer in three separate moments, with
      anything in between. A yes always means that a Connect has stored its writer and not removed
      it; it is wrong about the moment of the last look exactly when that Connect belongs to a
      later epoch and has not signalled yet. While the link is up at the first and the last
      moment, the answer is yes. */
  lemma {:induction false} IsConnectedAnswer(actions: seq<Action>, i: nat, j: nat)
    requires i <= j <= |actions|
    ensures var first, tested, last := Run(actions[..i]), Run(actions[..j]), Run(actions);
            var yes := Answer(first.signal, tested, last);
            && (yes ==> last.epoch in last.running && HasWriter(last.running[last.epoch]))
            && (yes ==> (!IsConnected(last) <==>
                  last.signal != first.signal && (last.running[last.epoch].LoadSignal? || last.running[last.epoch].CloseSignal?)))
            && (IsConnected(first) && IsConnected(last) ==> yes)
  {
    var first, tested, last := Run(actions[..i]), Run(actions[..j]), Run(actions);
    RunKeepsEpochs(actions);
    ConnectedMeansReading(actions);
    assert actions[..j][..i] == actions[..i];
    ClosesGrow(actions[..j], i);
    ClosesGrow(actions, j);
    if Answer(first.signal, tested, last) && last.signal == first.signal {
      assert last.closes[last.signal] > 0;
    }
  }

  // ------------------------------------------------------------- building runs

  ghost predicate Reachable(s: State) { exists actions :: s == Run(actions) }

  lemma Then(s: State, a: Action) returns (s': State)
    requires Reachable(s)
    ensures Reachable(s') && s' == Step(s, a)
  {
    var p :| s == Run(p);
    assert (p + [a])[..|p|] == p;
    s' := Step(s, a);
    assert s' == Run(p + [a]);
  }

  /** `s'` comes after `s` in some run. */
  ghost predicate Later(s: State, s': State)
  {
    exists actions, i: nat :: i <= |actions| && s == Run(actions[..i]) && s' == Run(actions)
  }

  lemma ThenLater(s: State, m: State, a: Action) returns (s': State)
    requires Later(s, m)
    ensures Later(s, s') && s' == Step(m, a)
  {
    var p, i: nat :| i <= |p| && s == Run(p[..i]) && m == Run(p);
    assert (p + [a])[..|p|] == p && (p + [a])[..i] == p[..i];
    s' := Step(m, a);
    assert s' == Run(p + [a]);
  }

  /** Signal 0 is closed; the loop and the Connect of epoch `e` are where they are. */
  ghost predicate Stage(s: State, l: Loop, e: Epoch, running: map<Epoch, Connect>, signal: Signal)
  {
    s.loop == l && s.epoch == e && s.running == running && s.signal == signal && s.closes == multiset{0} && !s.first
  }

  // The first Connect has stored its writer ...
  lemma FirstStores() returns (s: State)
    ensures Reachable(s) && s.loop.Waiting? && s.running == map[1 := LoadSignal] && s.epoch == 1 && s.done == {}
    ensures s.writer == Some(1) && s.signal == 0 && s.closes == multiset{} && !s.first
  {
    assert Run([]) == INIT;
    s := Then(INIT, LoopStep(false, false));
    s := Then(s, LoopStep(false, false));
    assert s.running == map[1 := Dialling];
    s := Then(s, ConnectStep(1, true));
    s := Then(s, ConnectStep(1, true));
  }

  // ... has signalled and reads; the loop has not noticed yet.
  lemma LinkUp() returns (s: State)
    ensures Reachable(s) && Stage(s, Waiting, 1, map[1 := Reading], 0) && s.done == {}
  {
    s := FirstStores();
    s := Then(s, ConnectStep(1, true));
    s := Then(s, ConnectStep(1, true));
  }

  // It drops at once and cleans up ...
  lemma LinkDrops(s: State, m: State) returns (s': State)
    requires Later(s, m) && Stage(m, Waiting, 1, map[1 := Reading], 0) && m.done == {}
    ensures Later(s, s') && Stage(s', Waiting, 1, map[1 := Reporting], 0) && s'.done == {}
  {
    s' := ConnectMove(s, m, Reading, ClearWriter);
    s' := ConnectMove(s, s', ClearWriter, CloseSessions);
    s' := ConnectMove(s, s', CloseSessions, Reporting);
  }

  lemma ConnectMove(s: State, m: State, c: Connect, c': Connect) returns (s': State)
    requires Later(s, m) && Stage(m, Waiting, 1, map[1 := c], 0) && m.done == {}
    requires (c.Reading? && c'.ClearWriter?) || (c.ClearWriter? && c'.CloseSessions?) || (c.CloseSessions? && c'.Reporting?)
    ensures Later(s, s') && Stage(s', Waiting, 1, map[1 := c'], 0) && s'.done == {}
  {
    s' := ThenLater(s, m, ConnectStep(1, true));
    assert m.running[1] == c;
  }

  // ... and reports.
  lemma LinkReports(s: State, m: State) returns (s': State)
    requires Later(s, m) && Stage(m, Waiting, 1, map[1 := Reporting], 0) && m.done == {}
    ensures Later(s, s') && Stage(s', Waiting, 1, map[], 0) && s'.done == {1}
  {
    ReportStep(m);
    s' := ThenLater(s, m, ConnectStep(1, true));
  }

  lemma ReportStep(m: State)
    requires m.running == map[1 := Reporting] && m.done == {}
    ensures Step(m, ConnectStep(1, true)) == m.(running := map[], done := {1})
  {
    assert m.running - {1} == map[] && m.done + {1} == {1};
    assert Step(m, ConnectStep(1, true)) == StepConnect(m, 1, Reporting, true);
  }

  lemma LoopSleeps(s: State, m: State) returns (s': State)
    requires Later(s, m) && Stage(m, Waiting, 1, map[], 0) && m.done == {1}
    ensures Later(s, s') && Stage(s', Backoff, 1, map[], 0)
  {
    s' := ThenLater(s, m, LoopStep(false, false));
  }

  // The next round ...
  lemma NextConnect(s: State, m: State) returns (s': State)
    requires Later(s, m) && Stage(m, Backoff, 1, map[], 0)
    ensures Later(s, s') && Stage(s', Waiting, 2, map[2 := Dialling], 1)
  {
    LoopRound(m);
    s' := ThenLater(s, m, LoopStep(false, false));
    s' := ThenLater(s, s', LoopStep(false, false));
    s' := ThenLater(s, s', LoopStep(false, false));
  }

  // From the sleep through Reset to the launch of the next Connect.
  lemma LoopRound(m: State)
    requires m.loop == Backoff && !m.first && m.running == map[]
    ensures var m1 := Step(m, LoopStep(false, false));
            var m2 := Step(m1, LoopStep(false, false));
            && m1 == m.(loop := Top, backoff := Grow(m.backoff))
            && m2 == m1.(loop := Launch, signal := m.signal + 1)
            && Step(m2, LoopStep(false, false)) ==
               m2.(loop := Waiting, epoch := m.epoch + 1, running := map[m.epoch + 1 := Dialling])
  {
  }

  // ... has stored its writer and not signalled.
  lemma NextStores(s: State, m: State) returns (s': State)
    requires Later(s, m) && Stage(m, Waiting, 2, map[2 := Dialling], 1)
    ensures Later(s, s') && Stage(s', Waiting, 2, map[2 := LoadSignal], 1) && s'.writer.Some?
  {
    s' := ThenLater(s, m, ConnectStep(2, true));
    s' := ThenLater(s, s', ConnectStep(2, true));
  }

  /** Such a wrong yes does occur: the signal of one epoch is tested, and the writer of the next
      epoch, not signalled yet, is seen. */
  lemma {:induction false} EarlyYes()
    ensures exists actions, i: nat ::
              i <= |actions| && Answer(Run(actions[..i]).signal, Run(actions[..i]), Run(actions)) && !IsConnected(Run(actions))
  {
    var up := LinkUp();
    var p :| up == Run(p);
    assert p[..|p|] == p;
    assert Later(up, up);
    var s := LinkDrops(up, up);
    s := LinkReports(up, s);
    s := LoopSleeps(up, s);
    s := NextConnect(up, s);
    var back := NextStores(up, s);
    var actions, i: nat :| i <= |actions| && up == Run(actions[..i]) && back == Run(actions);
    assert Answer(Run(actions[..i]).signal, Run(actions[..i]), Run(actions));
  }
}

/** How long `relayConnectLoop` of internal/manager/manager.go sleeps, and when it stops. */
module RelayBackoff {
  import opened Basics
  import opened RelayLink

  // ----------------------------------------------------------------- backoff

  predicate IsBackoff(b: nat) { b == 1 || b == 2 || b == 4 || b == 8 || b == 16 || b == 32 }

  lemma StepKeepsBackoff(s: State, a: Action)
    requires IsBackoff(s.backoff)
    ensures IsBackoff(Step(s, a).backoff)
  {
  }

  lemma {:induction false} RunKeepsBackoff(actions: seq<Action>)
    ensures IsBackoff(Run(actions).backoff)
    decreases |actions|
  {
    if actions == [] {
    } else {
      RunKeepsBackoff(actions[..|actions| - 1]);
      StepKeepsBackoff(Run(actions[..|actions| - 1]), actions[|actions| - 1]);
    }
  }

  /** The loop is at the start of a round and no Connect is left over. */
  predicate Fresh(s: State) { s.loop.Top? && s.running == map[] && s.done == {} }

  // A round in which the relay cannot be reached, up to the sleep.
  lemma FailedRound(s: State) returns (s': State)
    requires Reachable(s) && Fresh(s)
    ensures Reachable(s') && s'.loop.Backoff? && s'.running == map[] && s'.done == {} && s'.backoff == s.backoff
  {
    var s1 := Then(s, LoopStep(false, false));
    var s2 := Then(s1, LoopStep(false, false));
    s' := FailedConnect(s2);
  }

  lemma FailedConnect(s: State) returns (s': State)
    requires Reachable(s) && s.loop.Waiting? && s.running == map[s.epoch := Dialling] && s.done == {}
    ensures Reachable(s') && s'.loop.Backoff? && s'.running == map[] && s'.done == {} && s'.backoff == s.backoff
  {
    var s1 := Then(s, ConnectStep(s.epoch, false));
    var s2 := Then(s1, ConnectStep(s.epoch, false));
    assert s2.running == map[] && s2.done == {s.epoch};
    s' := Then(s2, LoopStep(false, false));
  }

  // One more failure doubles the sleep, as long as it is below the limit.
  lemma NextRound(s: State) returns (s': State)
    requires Reachable(s) && s.loop.Backoff? && s.running == map[] && s.done == {} && s.backoff < MAX_BACKOFF
    ensures Reachable(s') && s'.loop.Backoff? && s'.running == map[] && s'.done == {} && s'.backoff == 2 * s.backoff
  {
    var s1 := Then(s, LoopStep(false, false));
    s' := FailedRound(s1);
  }

  // With the relay down for good, the sleep is 2^k seconds.
  lemma {:induction false} SleepReached(k: nat, b: nat) returns (s: State)
    requires k <= 5 && b == [1, 2, 4, 8, 16, 32][k]
    ensures Reachable(s) && s.loop.Backoff? && s.running == map[] && s.done == {} && s.backoff == b
    decreases k
  {
    if k == 0 {
      assert Run([]) == INIT;
      s := FailedRound(INIT);
    } else {
      s := SleepReached(k - 1, b / 2);
      s := NextRound(s);
    }
  }

  /** The sleeps are exactly 1, 2, 4, 8, 16 and 32 seconds: each occurs in some run and no other
      does. The limit is tested before doubling, so 32 s is reached although the constant is 30 s. */
  lemma {:induction false} BackoffValues(b: nat)
    ensures (exists actions :: Run(actions).loop.Backoff? && Run(actions).backoff == b) <==> IsBackoff(b)
  {
    if IsBackoff(b) {
      var k := if b == 1 then 0 else if b == 2 then 1 else if b == 4 then 2 else if b == 8 then 3 else if b == 16 then 4 else 5;
      var s := SleepReached(k, b);
      var p :| s == Run(p);
      assert Run(p).loop.Backoff?;
    }
    if actions :| Run(actions).loop.Backoff? && Run(actions).backoff == b {
      RunKeepsBackoff(actions);
    }
  }

  // ------------------------------------------------------- which sleep when

  /** How many sleeps have ended since the start, or since setupRelayPeers was last done. */
  function SleepsSince(actions: seq<Action>): nat
  {
    if actions == [] then 0
    else
      var init, a := actions[..|actions| - 1], actions[|actions| - 1];
      if !a.LoopStep? then SleepsSince(init)
      else if Run(init).loop.Setup? then 0
      else if Run(init).loop.Backoff? && !a.cancelled then SleepsSince(init) + 1
      else SleepsSince(init)
  }

  function Pow2(k: nat): (p: nat)
    ensures p >= 1
  {
    if k == 0 then 1 else 2 * Pow2(k - 1)
  }

  lemma {:induction false} Pow2Grows(k: nat)
    ensures k >= 5 ==> Pow2(k) >= 32
  {
    if k <= 5 {
      assert Pow2(1) == 2 && Pow2(2) == 4 && Pow2(3) == 8 && Pow2(4) == 16 && Pow2(5) == 32;
    } else {
      Pow2Grows(k - 1);
    }
  }

  lemma {:induction false} GrowDoubles(k: nat)
    ensures Grow(Min(Pow2(k), 32)) == Min(Pow2(k + 1), 32)
  {
    Pow2Grows(k);
    if k < 5 {
      assert Pow2(1) == 2 && Pow2(2) == 4 && Pow2(3) == 8 && Pow2(4) == 16 && Pow2(5) == 32;
    }
  }

  // What a step does to the backoff.
  lemma BackoffStep(s: State, a: Action)
    ensures Step(s, a).backoff ==
            if !a.LoopStep? then s.backoff
            else if s.loop.Setup? then 1
            else if s.loop.Backoff? && !a.cancelled then Grow(s.backoff)
            else s.backoff
  {
  }

  // Between setupRelayPeers and the sleep there is no other sleep.
  lemma DrainingSource(s: State, a: Action)
    requires Step(s, a).loop.Draining?
    ensures (s.loop.Setup? && a.LoopStep?) || (s.loop.Draining? && (a.LoopStep? ==> Step(s, a) == s))
  {
  }

  /** Which sleep comes when, over every run: the backoff is 1 s doubled once for every sleep since the
      start or since the last connected round, up to 32 s; so the sleep after a connected round, which
      is reached from waiting for its end, is 1 s. */
  lemma {:induction false} SleepLengths(actions: seq<Action>)
    ensures Run(actions).backoff == Min(Pow2(SleepsSince(actions)), 32)
    ensures Run(actions).loop.Draining? ==> SleepsSince(actions) == 0 && Run(actions).backoff == 1
    decreases |actions|
  {
    if actions == [] {
    } else {
      var init, a := actions[..|actions| - 1], actions[|actions| - 1];
      SleepLengths(init);
      BackoffStep(Run(init), a);
      GrowDoubles(SleepsSince(init));
      if Run(actions).loop.Draining? { DrainingSource(Run(init), a); }
    }
  }

  /** The sleep after a connected round is 1 s, however long those before it were. */
  lemma {:induction false} DropSleepsOneSecond(actions: seq<Action>, a: Action)
    requires Run(actions).loop.Draining? && Run(actions + [a]).loop.Backoff?
    ensures Run(actions + [a]).backoff == 1
  {
    SleepLengths(actions);
    assert (actions + [a])[..|actions|] == actions;
    BackoffStep(Run(actions), a);
  }

  // ------------------------------------------------------- a connected round

  // A Connect that succeeds, up to its reading.
  lemma ConnectSucceeds(s: State) returns (s': State)
    requires Reachable(s) && s.loop.Waiting? && s.running == map[s.epoch := Dialling] && s.done == {}
    ensures Reachable(s') && s'.loop.Waiting? && s'.epoch == s.epoch && s'.running == map[s.epoch := Reading] && s'.done == {}
    ensures Signalled(s')
  {
    s' := Then(s, ConnectStep(s.epoch, true));
    s' := WriterStored(s');
    s' := SignalClosed(s');
  }

  lemma WriterStored(s: State) returns (s': State)
    requires Reachable(s) && s.loop.Waiting? && s.running == map[s.epoch := StoreWriter] && s.done == {}
    ensures Reachable(s') && s'.loop.Waiting? && s'.epoch == s.epoch && s'.running == map[s.epoch := LoadSignal] && s'.done == {}
  {
    s' := Then(s, ConnectStep(s.epoch, true));
  }

  lemma SignalClosed(s: State) returns (s': State)
    requires Reachable(s) && s.loop.Waiting? && s.running == map[s.epoch := LoadSignal] && s.done == {}
    ensures Reachable(s') && s'.loop.Waiting? && s'.epoch == s.epoch && s'.running == map[s.epoch := Reading] && s'.done == {}
    ensures Signalled(s')
  {
    s' := Then(s, ConnectStep(s.epoch, true));
    assert s'.running == map[s.epoch := CloseSignal(s.signal)];
    s' := Then(s', ConnectStep(s.epoch, true));
  }

  // The loop notices, sets the peers up and waits for the end.
  lemma LoopConnected(s: State) returns (s': State)
    requires Reachable(s) && s.loop.Waiting? && Signalled(s) && s.done == {}
    ensures Reachable(s') && s'.loop.Draining? && s'.epoch == s.epoch && s'.running == s.running && s'.done == {}
  {
    s' := Then(s, LoopStep(false, true));
    assert s'.loop.Setup?;
    s' := Then(s', LoopStep(false, true));
  }

  // The connection ends.
  lemma ReadingEnds(s: State) returns (s': State)
    requires Reachable(s) && s.loop.Draining? && s.running == map[s.epoch := Reading] && s.done == {}
    ensures Reachable(s') && s'.loop.Draining? && s'.epoch == s.epoch && s'.running == map[s.epoch := CloseSessions] && s'.done == {}
  {
    s' := Then(s, ConnectStep(s.epoch, true));
    assert s'.running == map[s.epoch := ClearWriter];
    s' := Then(s', ConnectStep(s.epoch, true));
  }

  lemma CleanedUp(s: State) returns (s': State)
    requires Reachable(s) && s.loop.Draining? && s.running == map[s.epoch := CloseSessions] && s.done == {}
    ensures Reachable(s') && s'.loop.Draining? && s'.epoch == s.epoch && s'.running == map[s.epoch := Reporting] && s'.done == {}
  {
    s' := Then(s, ConnectStep(s.epoch, true));
  }

  lemma Reported(s: State) returns (s': State)
    requires Reachable(s) && s.loop.Draining? && s.running == map[s.epoch := Reporting] && s.done == {}
    ensures Reachable(s') && s'.loop.Draining? && s'.epoch == s.epoch && s'.done == {s.epoch}
  {
    s' := Then(s, ConnectStep(s.epoch, true));
  }

  /** From the start of every round, the relay can connect and drop: the loop sets the peers up, waits
      for the end and comes to a sleep of 1 s. */
  lemma {:induction false} ConnectedRound(s: State) returns (m: State, s': State)
    requires Reachable(s) && Fresh(s)
    ensures Reachable(m) && m.loop.Draining? && Reachable(s') && s' == Step(m, LoopStep(false, false))
    ensures s'.loop.Backoff? && s'.backoff == 1
  {
    m := Then(s, LoopStep(false, false));
    m := Then(m, LoopStep(false, false));
    m := ConnectSucceeds(m);
    m := LoopConnected(m);
    m := ReadingEnds(m);
    m := CleanedUp(m);
    m := Reported(m);
    s' := Then(m, LoopStep(false, false));
    var p :| m == Run(p);
    SleepLengths(p);
  }

  /** A Connect that has signalled and already returned when the loop looks: the select may take either
      case, so the round may count as connected or as failed. */
  lemma InstantDrop(s: State)
    requires s.loop.Waiting? && s.epoch in s.done && Signalled(s)
    ensures Step(s, LoopStep(false, true)).loop.Setup? && Step(s, LoopStep(false, false)).loop.Backoff?
  {
  }

  // ------------------------------------------------------------ cancellation

  /** A cancelled context ends the loop where it waits or sleeps, and no further Connect is started. */
  lemma {:induction false} CancelStops(s: State, other: bool, actions: seq<Action>)
    requires s.loop.Waiting? || s.loop.Draining? || s.loop.Backoff? || s.loop.Stopped?
    ensures var f := Follow(Step(s, LoopStep(true, other)), actions);
            f.loop.Stopped? && f.epoch == s.epoch
    decreases |actions|
  {
    if actions == [] {
    } else {
      CancelStops(s, other, actions[..|actions| - 1]);
      StoppedStays(Follow(Step(s, LoopStep(true, other)), actions[..|actions| - 1]), actions[|actions| - 1]);
    }
  }

  lemma StoppedStays(s: State, a: Action)
    requires s.loop.Stopped?
    ensures Step(s, a).loop.Stopped? && Step(s, a).epoch == s.epoch
  {
  }

  function Follow(s: State, actions: seq<Action>): State
  {
    if actions == [] then s else Step(Follow(s, actions[..|actions| - 1]), actions[|actions| - 1])
  }
}

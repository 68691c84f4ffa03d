/** That forwarding gets on: every handler at work can be brought, with the help of those whose payload
    its destinations are owed, to the point where it has decoded and forwarded all its input. */
module RelayProgress {
  import opened Basics
  import opened Env = Envelopes
  import opened Relays

  // -------------------------------------------------------- who is owed what

  /** A live stream that ends with a header is owed the payload by a handler. */
  ghost predicate OwedInv(s: State)
  {
    forall d: Hid :: d in s.handlers && d < |s.outputs| && s.outputs[d].open.Some? ==> exists g: Hid :: Owes(s, g, d)
  }

  // The debt of `g` to `d` outlives a step of somebody else.
  lemma DebtStays(s: State, h: Hid, g: Hid, d: Hid)
    requires LiveInv(s) && h in s.handlers && g != h && Owes(s, g, d) && d in Step(s, Advance(h)).handlers
    ensures Owes(Step(s, Advance(h)), g, d)
  {
  }

  // What a step of `h` leaves open on stream `d`.
  lemma OpenAfter(s: State, h: Hid, d: Hid)
    requires WholeInv(s) && Exclusive(s, Advance(h)) && h in s.handlers && d in s.handlers
    requires d < |Step(s, Advance(h)).outputs| && Step(s, Advance(h)).outputs[d].open.Some?
    requires d in Step(s, Advance(h)).handlers
    ensures Owes(Step(s, Advance(h)), h, d) || (d < |s.outputs| && s.outputs[d].open.Some? && !Owes(s, h, d))
  {
    var k := s.handlers[h].phase;
    if k.HalfSent? {
      PaidAfter(s, h, d);
    } else if k.Holding? {
      HeaderAfter(s, h, d);
    }
  }

  lemma PaidAfter(s: State, h: Hid, d: Hid)
    requires LiveInv(s) && h in s.handlers && d in s.handlers && s.handlers[h].phase.HalfSent? && d < |s.outputs|
    ensures var s' := Step(s, Advance(h));
            |s'.outputs| == |s.outputs| && s'.outputs[d].open == if s.handlers[h].phase.dst == d then None else s.outputs[d].open
  {
  }

  lemma HeaderAfter(s: State, h: Hid, d: Hid)
    requires LiveInv(s) && h in s.handlers && d in s.handlers && s.handlers[h].phase.Holding? && d < |s.outputs|
    ensures var s', k := Step(s, Advance(h)), s.handlers[h].phase;
            && |s'.outputs| == |s.outputs|
            && (k.dst != d ==> s'.outputs[d].open == s.outputs[d].open)
            && (k.dst == d ==> if k.env.payload == [] then s'.outputs[d].open == None else Owes(s', h, d))
  {
  }

  lemma OwedAfter(s: State, h: Hid, d: Hid)
    requires WholeInv(s) && OwedInv(s) && Exclusive(s, Advance(h)) && h in s.handlers && d in s.handlers
    requires d < |Step(s, Advance(h)).outputs| && Step(s, Advance(h)).outputs[d].open.Some?
    requires d in Step(s, Advance(h)).handlers
    ensures exists g: Hid :: Owes(Step(s, Advance(h)), g, d)
  {
    OpenAfter(s, h, d);
    if !Owes(Step(s, Advance(h)), h, d) {
      var g: Hid :| Owes(s, g, d);
      DebtStays(s, h, g, d);
    }
  }

  lemma NobodyJoins(s: State, h: Hid)
    ensures Step(s, Advance(h)).handlers.Keys <= s.handlers.Keys
  {
  }

  lemma StepKeepsOwed(s: State, a: Action)
    requires WholeInv(s) && OwedInv(s) && Exclusive(s, a)
    ensures OwedInv(Step(s, a))
  {
    if a.Accept? {
      AcceptKeepsOwed(s, a);
    } else if a.h in s.handlers {
      NobodyJoins(s, a.h);
      forall d: Hid | d in Step(s, a).handlers && d < |Step(s, a).outputs| && Step(s, a).outputs[d].open.Some?
        ensures exists g: Hid :: Owes(Step(s, a), g, d)
      {
        OwedAfter(s, a.h, d);
      }
    }
  }

  lemma AcceptKeepsOwed(s: State, a: Action)
    requires WholeInv(s) && OwedInv(s) && a.Accept?
    ensures OwedInv(Step(s, a))
  {
    var s' := Step(s, a);
    forall d: Hid | d in s'.handlers && d < |s'.outputs| && s'.outputs[d].open.Some? ensures exists g: Hid :: Owes(s', g, d) {
      assert d in s.handlers && s'.outputs[d] == s.outputs[d];
      var g: Hid :| Owes(s, g, d);
      assert Owes(s', g, d);
    }
  }

  lemma {:induction false} RunKeepsOwed(actions: seq<Action>)
    requires OneForwardAtATime(actions)
    ensures WholeInv(Run(INIT, actions)) && OwedInv(Run(INIT, actions))
    decreases |actions|
  {
    if actions == [] {
    } else {
      var init := actions[..|actions| - 1];
      RunKeepsOwed(init);
      StepKeepsWhole(Run(INIT, init), actions[|actions| - 1]);
      StepKeepsOwed(Run(INIT, init), actions[|actions| - 1]);
    }
  }

  // ------------------------------------------------------------ quiet leads

  /** No step of the run overlaps a forward or changes the table. */
  ghost predicate QuietRun(s: State, actions: seq<Action>)
  {
    actions == [] ||
    (var init := actions[..|actions| - 1];
     && QuietRun(s, init) && Exclusive(Run(s, init), actions[|actions| - 1])
     && Run(s, init).table == Run(s, actions).table == s.table)
  }

  ghost predicate QuietLeads(s: State, f: State) { exists actions :: QuietRun(s, actions) && f == Run(s, actions) }

  lemma {:induction false} QuietConcat(s: State, a: seq<Action>, b: seq<Action>)
    requires QuietRun(s, a) && QuietRun(Run(s, a), b)
    ensures Run(s, a + b) == Run(Run(s, a), b) && QuietRun(s, a + b)
    decreases |b|
  {
    if b == [] {
      assert a + b == a;
    } else {
      var init, x := b[..|b| - 1], b[|b| - 1];
      assert b == init + [x];
      QuietSnoc(Run(s, a), init, x);
      QuietConcat(s, a, init);
      QuietTable(s, a);
      QuietSnoc(s, a + init, x);
      Assoc(a, init, [x]);
    }
  }

  lemma {:induction false} QuietSnoc(s: State, actions: seq<Action>, a: Action)
    ensures Run(s, actions + [a]) == Step(Run(s, actions), a)
    ensures QuietRun(s, actions + [a]) <==>
            && QuietRun(s, actions) && Exclusive(Run(s, actions), a)
            && Run(s, actions).table == Step(Run(s, actions), a).table == s.table
  {
    assert (actions + [a])[..|actions|] == actions;
  }

  lemma {:induction false} QuietTable(s: State, actions: seq<Action>)
    requires QuietRun(s, actions)
    ensures Run(s, actions).table == s.table
  {
  }

  lemma QuietThen(s: State, m: State, f: State)
    requires QuietLeads(s, m) && QuietLeads(m, f)
    ensures QuietLeads(s, f)
  {
    var a :| QuietRun(s, a) && m == Run(s, a);
    var b :| QuietRun(m, b) && f == Run(m, b);
    QuietConcat(s, a, b);
  }

  lemma {:induction false} QuietOne(s: State, h: Hid)
    requires Exclusive(s, Advance(h)) && Step(s, Advance(h)).table == s.table
    ensures QuietLeads(s, Step(s, Advance(h)))
  {
    var a := [Advance(h)];
    assert a[..0] == [] && Run(s, []) == s && QuietRun(s, []);
    assert Run(s, a) == Step(s, Advance(h)) && QuietRun(s, a);
  }

  lemma {:induction false} QuietNone(s: State)
    ensures QuietLeads(s, s)
  {
    assert Run(s, []) == s && QuietRun(s, []);
  }

  // ------------------------------------------------------------ one handler

  /** At work: registered and not about to leave. */
  predicate Working(p: Phase) { p.Ready? || InFlight(p) }

  function Rank(p: Phase): nat { match p case Holding(_, _) => 2 case HalfSent(_, _) => 1 case _ => 0 }

  // One step of a handler at work.
  lemma WorkStep(s: State, h: Hid)
    requires LiveInv(s) && h in s.handlers && Working(s.handlers[h].phase)
    requires s.handlers[h].phase.Ready? ==> Env.Parse(s.inputs[h].rest).Some?
    ensures var s' := Step(s, Advance(h));
            && s'.table == s.table && h in s'.handlers && Working(s'.handlers[h].phase) && h < |s'.inputs|
            && (|s'.inputs[h].rest| < |s.inputs[h].rest|
                || (s'.inputs[h] == s.inputs[h] && Rank(s'.handlers[h].phase) < Rank(s.handlers[h].phase)))
  {
  }

  // A handler in debt to `d` pays; another one is not touched.
  lemma PayStep(s: State, g: Hid, d: Hid, h: Hid)
    requires WholeInv(s) && Owes(s, g, d) && d < |s.outputs|
    ensures var s' := Step(s, Advance(g));
            && Exclusive(s, Advance(g)) && s'.table == s.table && s'.inputs == s.inputs && |s'.outputs| == |s.outputs|
            && s'.outputs[d].open == None && d in s'.handlers
            && (h in s.handlers && h != g ==> h in s'.handlers && s'.handlers[h] == s.handlers[h])
            && g in s'.handlers && s'.handlers[g].phase.Ready?
  {
  }

  // Whoever stream `d` is owed a payload by pays.
  lemma {:induction false} SettleStream(s: State, d: Hid, h: Hid) returns (m: State)
    requires WholeInv(s) && OwedInv(s) && d in s.handlers && d < |s.outputs|
    requires h in s.handlers && !s.handlers[h].phase.HalfSent?
    ensures QuietLeads(s, m) && WholeInv(m) && OwedInv(m) && m.inputs == s.inputs
    ensures h in m.handlers && m.handlers[h] == s.handlers[h] && d in m.handlers
    ensures |m.outputs| == |s.outputs| && m.outputs[d].open == None
  {
    if s.outputs[d].open == None {
      QuietNone(s);
      m := s;
    } else {
      var g: Hid :| Owes(s, g, d);
      PayStep(s, g, d, h);
      m := Step(s, Advance(g));
      QuietOne(s, g);
      StepKeepsWhole(s, Advance(g));
      StepKeepsOwed(s, Advance(g));
    }
  }

  // Whatever `h` has to wait for is out of its way.
  lemma {:induction false} ClearWay(s: State, h: Hid) returns (m: State)
    requires WholeInv(s) && OwedInv(s) && h in s.handlers
    ensures QuietLeads(s, m) && WholeInv(m) && OwedInv(m)
    ensures h in m.handlers && m.handlers[h] == s.handlers[h] && m.inputs == s.inputs && Exclusive(m, Advance(h))
  {
    var k := s.handlers[h].phase;
    if k.Holding? && k.dst in s.handlers && k.dst < |s.outputs| {
      m := SettleStream(s, k.dst, h);
    } else {
      QuietNone(s);
      m := s;
    }
  }

  /** Every handler at work, in every state a run without overlapping forwards can reach, has a
      continuation of that kind, with the table as it is, after which it has decoded all it can of its
      input and carries nothing. */
  lemma {:induction false} HandlerFinishes(s: State, h: Hid) returns (f: State)
    requires WholeInv(s) && OwedInv(s) && h in s.handlers && Working(s.handlers[h].phase)
    ensures QuietLeads(s, f) && WholeInv(f) && OwedInv(f)
    ensures h in f.handlers && f.handlers[h].phase.Ready? && Env.Parse(f.inputs[h].rest).None?
    decreases |s.inputs[h].rest|, Rank(s.handlers[h].phase)
  {
    if s.handlers[h].phase.Ready? && Env.Parse(s.inputs[h].rest).None? {
      QuietNone(s);
      f := s;
    } else {
      var m := ClearWay(s, h);
      WorkStep(m, h);
      var m' := Step(m, Advance(h));
      QuietOne(m, h);
      QuietThen(s, m, m');
      StepKeepsWhole(m, Advance(h));
      StepKeepsOwed(m, Advance(h));
      f := HandlerFinishes(m', h);
      QuietThen(s, m', f);
    }
  }
}

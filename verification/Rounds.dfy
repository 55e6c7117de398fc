/** What a broadcast round guarantees: progress, who can hold it up, and how often each client is served. */
module Rounds {
  import opened Messages
  import opened Counting
  import opened Broadcast

  // ------------------------------------------------------------------ the front of the queue

  /** Once a client has seen the queue non-empty nothing empties it before its copy: the copy cannot
      block, and it reads the message of the current round. */
  lemma FrontIsStable(s: State, c: nat, step: Step)
    requires Inv(s) && At(s, c, Copying) && Enabled(s, step)
    ensures s.rounds != [] && s.queue == [s.rounds[|s.rounds| - 1]] && Enabled(s, FrontCopy(c))
    ensures Next(s, step).queue == s.queue && (step == FrontCopy(c) || At(Next(s, step), c, Copying))
    ensures Next(s, FrontCopy(c)).clients[c].log == s.clients[c].log + [Copy(|s.rounds| - 1, s.rounds[|s.rounds| - 1])]
  {
    TotalIncludes(InCopy, s.clients, c);
    if step.Pop? {
      BarrierAtPop(s);
    }
  }

  /** The queue never holds more than one message. */
  lemma QueueIsShort(steps: seq<Step>)
    requires Run(INITIAL, steps)
    ensures |After(INITIAL, steps).queue| <= 1
  {
    ReachableIsBalanced(steps);
  }

  // ------------------------------------------------------------------ runs within a round

  ghost predicate Within(steps: seq<Step>) {
    forall k :: 0 <= k < |steps| ==> !steps[k].Pop?
  }

  lemma {:induction false} RunConcat(s: State, a: seq<Step>, b: seq<Step>)
    requires Run(s, a) && Run(After(s, a), b)
    ensures Run(s, a + b) && After(s, a + b) == After(After(s, a), b)
    decreases |a|
  {
    if a == [] {
      assert a + b == b;
    } else {
      RunConcat(Next(s, a[0]), a[1..], b);
      assert (a + b)[0] == a[0] && (a + b)[1..] == a[1..] + b;
    }
  }

  /** Until the pop, the round and everyone in it stay. */
  lemma CollectingStep(s: State, step: Step)
    requires Inv(s) && s.sender.Collecting? && Enabled(s, step) && !step.Pop?
    ensures Inv(Next(s, step)) && Next(s, step).sender.Collecting?
    ensures Next(s, step).sender.n == s.sender.n && Next(s, step).rounds == s.rounds && Next(s, step).count == s.count
    ensures Next(s, step).stopped == s.stopped && |s.clients| <= |Next(s, step).clients|
    ensures forall c :: 0 <= c < |s.clients| ==> Registered(Next(s, step).clients[c]) == Registered(s.clients[c])
    ensures Next(s, step).loopTokens == if step.Pass? then s.loopTokens - 1 else s.loopTokens
  {
    InvStep(s, step);
  }

  lemma {:induction false} CollectingRun(s: State, steps: seq<Step>)
    requires Inv(s) && s.sender.Collecting? && Run(s, steps) && Within(steps)
    ensures Inv(After(s, steps)) && After(s, steps).sender.Collecting?
    ensures After(s, steps).rounds == s.rounds && After(s, steps).count == s.count
    ensures |s.clients| <= |After(s, steps).clients|
    decreases |steps|
  {
    if steps != [] {
      CollectingStep(s, steps[0]);
      CollectingRun(Next(s, steps[0]), steps[1..]);
    }
  }

  // ------------------------------------------------------------------ progress

  /** Steps a client can take before it next waits for a loop token. */
  function Ahead(c: Client): nat {
    match c.pc
    case AtLoop(_) => 6
    case Waiting => 5
    case Copying => 4
    case Posting => 3
    case Writing => 2
    case Parked(_) => 1
    case Leaving => 1
    case _ => 0
  }

  /** Work left in the round: every leftover loop token buys one more lap. */
  ghost function WorkLeft(s: State): nat
    requires Inv(s) && s.sender.Collecting?
  {
    Total(Ahead, s.clients) + 8 * s.loopTokens + (s.sender.n - s.sender.i)
  }

  /** Every step but an arrival uses up work, until the sender pops. */
  lemma RoundAdvances(s: State, step: Step)
    requires Inv(s) && s.sender.Collecting? && Enabled(s, step) && !step.Pop?
    ensures Inv(Next(s, step)) && Next(s, step).sender.Collecting?
    ensures if step.Arrive? then WorkLeft(Next(s, step)) == WorkLeft(s) else WorkLeft(Next(s, step)) < WorkLeft(s)
  {
    hide Logged, LogInOrder, Total;
    CollectingStep(s, step);
    if MovesClient(step) {
      TotalUpdate(Ahead, s.clients, step.c, Next(s, step).clients[step.c]);
    } else if step.Arrive? {
      TotalAppend(Ahead, s.clients, Client(Joining, []));
    }
  }

  /** So a round cannot go on for ever without popping: arrivals aside, its runs are bounded. */
  lemma {:induction false} RoundIsBounded(s: State, steps: seq<Step>)
    requires Inv(s) && s.sender.Collecting? && Run(s, steps) && Within(steps)
    requires forall k :: 0 <= k < |steps| ==> !steps[k].Arrive?
    ensures Inv(After(s, steps)) && After(s, steps).sender.Collecting?
    ensures |steps| + WorkLeft(After(s, steps)) <= WorkLeft(s)
    decreases |steps|
  {
    if steps != [] {
      RoundAdvances(s, steps[0]);
      RoundIsBounded(Next(s, steps[0]), steps[1..]);
    }
  }

  ghost predicate Departed(s: State) {
    exists c :: At(s, c, Leaving)
  }

  /** While nobody has left the loop, some thread of an open round can move. */
  lemma SomeoneCanMove(s: State) returns (step: Step)
    requires Inv(s) && s.sender.Collecting? && !Departed(s)
    ensures Enabled(s, step) && !step.Arrive?
  {
    if Total(InBarrier, s.clients) < s.count {
      var c := TotalGap(InBarrier, Registered, s.clients);
      assert !At(s, c, Leaving);
      step := match s.clients[c].pc
        case AtLoop(_) => Check(c, false)
        case Waiting => WaitFor(c)
        case Copying => FrontCopy(c)
        case _ => Post(c);
    } else if s.popTokens > 0 {
      TotalOrder(InBarrier, Registered, s.clients);
      step := Collect;
    } else if s.loopTokens > 0 {
      var c := TotalPositive(InBarrier, s.clients);
      step := if s.clients[c].pc.Writing? then Write(c, true) else Pass(c);
    } else {
      TotalOrder(InBarrier, Registered, s.clients);
      step := Pop;
    }
  }

  /** A counted client that has left the loop waits for the lock that the sender holds, and the sender
      waits for its post: in every continuation the round stays open. */
  lemma {:induction false} DepartedHoldsRoundOpen(s: State, c: nat, steps: seq<Step>)
    requires Inv(s) && s.sender.Collecting? && At(s, c, Leaving) && Run(s, steps)
    ensures After(s, steps).sender.Collecting? && At(After(s, steps), c, Leaving)
    decreases |steps|
  {
    hide Logged, LogInOrder, Total;
    if steps != [] {
      assert Registered(s.clients[c]) == 1 && InBarrier(s.clients[c]) == 0;
      if steps[0].Pop? {
        BarrierAtPop(s);
      }
      InvStep(s, steps[0]);
      DepartedHoldsRoundOpen(Next(s, steps[0]), c, steps[1..]);
    }
  }

  /** It happens: a client cancelled between rounds is overtaken by the next round. */
  lemma CancelledClientIsOvertaken(m: Message)
    ensures var steps := [Arrive, Join(0), Check(0, true), Open(m, false), Push];
      && Run(INITIAL, steps) && After(INITIAL, steps).sender == Collecting(1, 0, false)
      && At(After(INITIAL, steps), 0, Leaving)
  {
    var s1 := Next(INITIAL, Arrive);
    var s2 := Next(s1, Join(0));
    var s3 := Next(s2, Check(0, true));
    var s4 := Next(s3, Open(m, false));
    var s5 := Next(s4, Push);
    assert Run(s5, []) && After(s5, []) == s5;
    assert Run(s4, [Push]) && After(s4, [Push]) == s5;
    assert Run(s3, [Open(m, false), Push]) && After(s3, [Open(m, false), Push]) == s5;
    assert Run(s2, [Check(0, true), Open(m, false), Push]) && After(s2, [Check(0, true), Open(m, false), Push]) == s5;
    assert Run(s1, [Join(0), Check(0, true), Open(m, false), Push])
        && After(s1, [Join(0), Check(0, true), Open(m, false), Push]) == s5;
  }

  // ------------------------------------------------------------------ which rounds can close

  /** A counted client that can only leave. */
  ghost predicate Doomed(s: State, c: nat)
    requires c < |s.clients|
  {
    s.clients[c].pc.Leaving? || (s.clients[c].pc.AtLoop? && (s.clients[c].pc.broken || s.stopped))
  }

  /** A counted client that can take a loop token and stay. */
  ghost predicate CanLap(s: State, c: nat)
    requires c < |s.clients|
  {
    Registered(s.clients[c]) == 1 && s.clients[c].pc != Parked(true)
  }

  ghost predicate CanClose(s: State) {
    && (forall c :: 0 <= c < |s.clients| ==> !Doomed(s, c))
    && (s.loopTokens == 0 || (!s.stopped && exists c :: 0 <= c < |s.clients| && CanLap(s, c)))
  }

  ghost predicate Closes(s: State) {
    exists steps :: Run(s, steps) && Within(steps) && Enabled(After(s, steps), Pop)
  }

  lemma StepTowardsClose(s: State) returns (step: Step)
    requires Inv(s) && s.sender.Collecting? && CanClose(s) && !Enabled(s, Pop)
    ensures Enabled(s, step) && !step.Arrive? && !step.Pop? && CanClose(Next(s, step))
  {
    hide Logged, LogInOrder, Total;
    if Total(InBarrier, s.clients) < s.count {
      var c := TotalGap(InBarrier, Registered, s.clients);
      assert !Doomed(s, c);
      step := match s.clients[c].pc
        case AtLoop(_) => Check(c, false)
        case Waiting => WaitFor(c)
        case Copying => FrontCopy(c)
        case _ => Post(c);
      StillCanClose(s, step);
    } else {
      TotalOrder(InBarrier, Registered, s.clients);
      if s.popTokens > 0 {
        step := Collect;
        assert Next(s, step).clients == s.clients;
        assert forall c :: 0 <= c < |s.clients| ==>
          Doomed(Next(s, step), c) == Doomed(s, c) && CanLap(Next(s, step), c) == CanLap(s, c);
      } else {
        var c :| 0 <= c < |s.clients| && CanLap(s, c);
        step := if s.clients[c].pc.Writing? then Write(c, true) else Pass(c);
        StillCanClose(s, step);
      }
    }
  }

  /** A client that stays, or writes without error, keeps the round able to close. */
  lemma StillCanClose(s: State, step: Step)
    requires CanClose(s) && Enabled(s, step) && MovesClient(step) && !step.Join? && !step.Leave? && s.queue != []
    requires step.Check? ==> !step.cancelled
    requires step.Write? ==> step.ok
    requires step.Pass? ==> s.clients[step.c].pc == Parked(false)
    ensures CanClose(Next(s, step))
  {
    var s' := Next(s, step);
    assert !Doomed(s, step.c);
    forall c | 0 <= c < |s'.clients| ensures !Doomed(s', c) {
      assert !Doomed(s, c);
    }
    if s.loopTokens > 0 {
      assert CanLap(s', step.c);
    }
  }

  lemma {:induction false} RunToClose(s: State) returns (steps: seq<Step>)
    requires Inv(s) && s.sender.Collecting? && CanClose(s)
    ensures Run(s, steps) && Within(steps) && Enabled(After(s, steps), Pop)
    decreases WorkLeft(s)
  {
    if Enabled(s, Pop) {
      steps := [];
    } else {
      var step := StepTowardsClose(s);
      RoundAdvances(s, step);
      var rest := RunToClose(Next(s, step));
      steps := [step] + rest;
      assert steps[0] == step && steps[1..] == rest;
    }
  }

  lemma PopMeansCanClose(s: State)
    requires Inv(s) && Enabled(s, Pop)
    ensures CanClose(s)
  {
    BarrierAtPop(s);
    forall c | 0 <= c < |s.clients| ensures !Doomed(s, c) {
      assert Registered(s.clients[c]) == 1 ==> InBarrier(s.clients[c]) == 1;
    }
  }

  /** Nothing repairs a round that cannot close. */
  lemma StillCannotClose(s: State, step: Step)
    requires Inv(s) && s.sender.Collecting? && !CanClose(s) && Enabled(s, step)
    ensures !step.Pop? && !CanClose(Next(s, step))
  {
    hide Logged, LogInOrder, Total;
    if step.Pop? {
      PopMeansCanClose(s);
    }
    CollectingStep(s, step);
    var s' := Next(s, step);
    if c :| 0 <= c < |s.clients| && Doomed(s, c) {
      assert Doomed(s', c);
    } else if step.Pass? {
      assert !CanLap(s, step.c) || s.stopped;
      assert Doomed(s', step.c);
    } else {
      forall c | 0 <= c < |s'.clients| && CanLap(s', c) ensures s.stopped {
        assert c < |s.clients|;
        assert CanLap(s, c);
      }
    }
  }

  lemma {:induction false} CannotCloseRun(s: State, steps: seq<Step>)
    requires Inv(s) && s.sender.Collecting? && !CanClose(s) && Run(s, steps) && Within(steps)
    ensures !Enabled(After(s, steps), Pop)
    decreases |steps|
  {
    if steps == [] {
      if Enabled(s, Pop) {
        StillCannotClose(s, Pop);
      }
    } else {
      StillCannotClose(s, steps[0]);
      CollectingStep(s, steps[0]);
      CannotCloseRun(Next(s, steps[0]), steps[1..]);
    }
  }

  /** A round can be brought to its pop exactly when no counted client has left or must leave, and any
      leftover loop tokens can be used up by a client that will stay. */
  lemma ClosesIffCanClose(s: State)
    requires Inv(s) && s.sender.Collecting?
    ensures Closes(s) <==> CanClose(s)
  {
    if CanClose(s) {
      var steps := RunToClose(s);
    } else {
      forall steps | Run(s, steps) && Within(steps) ensures !Enabled(After(s, steps), Pop) {
        CannotCloseRun(s, steps);
      }
    }
  }

  // ------------------------------------------------------------------ which rounds must close

  /** Nothing is left to do but to pop, arrivals aside. */
  ghost predicate Halted(s: State) {
    forall step :: Enabled(s, step) ==> step.Arrive? || step.Pop?
  }

  /** However the threads interleave, whatever is cancelled and whichever writes fail, the round comes to
      its pop: its runs are bounded, and none of them halts anywhere else. */
  ghost predicate AlwaysCloses(s: State) {
    forall steps :: Run(s, steps) && Within(steps) && Halted(After(s, steps)) ==> Enabled(After(s, steps), Pop)
  }

  /** No counted client will test the loop condition again, or has left after testing it, before the pop. */
  ghost predicate PastTest(s: State) {
    s.loopTokens == 0 && forall c :: 0 <= c < |s.clients| ==> !s.clients[c].pc.AtLoop? && !s.clients[c].pc.Leaving?
  }

  lemma PastTestStep(s: State, step: Step)
    requires Inv(s) && s.sender.Collecting? && PastTest(s) && Enabled(s, step) && !step.Pop?
    ensures PastTest(Next(s, step))
  {
  }

  lemma {:induction false} PastTestRun(s: State, steps: seq<Step>)
    requires Inv(s) && s.sender.Collecting? && PastTest(s) && Run(s, steps) && Within(steps)
    ensures Inv(After(s, steps)) && After(s, steps).sender.Collecting? && PastTest(After(s, steps))
    decreases |steps|
  {
    if steps != [] {
      PastTestStep(s, steps[0]);
      CollectingStep(s, steps[0]);
      PastTestRun(Next(s, steps[0]), steps[1..]);
    }
  }

  /** A client that has yet to test the loop condition can be cancelled there, and one that can use a
      leftover token has yet to test it. */
  lemma {:induction false} RunToCannotClose(s: State) returns (steps: seq<Step>)
    requires Inv(s) && s.sender.Collecting? && !PastTest(s)
    ensures Run(s, steps) && Within(steps) && !CanClose(After(s, steps))
    decreases WorkLeft(s)
  {
    if CanClose(s) {
      var c: nat;
      if s.loopTokens > 0 {
        c := TotalPositive(InBarrier, s.clients);
      } else {
        c :| c < |s.clients| && (s.clients[c].pc.AtLoop? || s.clients[c].pc.Leaving?);
        assert !Doomed(s, c);
      }
      var step := match s.clients[c].pc
        case AtLoop(_) => Check(c, true)
        case Writing => Write(c, true)
        case _ => Pass(c);
      RoundAdvances(s, step);
      assert Next(s, step).clients[c].pc.Leaving? || Next(s, step).clients[c].pc.AtLoop? ||
        Next(s, step).loopTokens > 0;
      var rest := RunToCannotClose(Next(s, step));
      steps := [step] + rest;
      assert steps[0] == step && steps[1..] == rest;
    } else {
      steps := [];
    }
  }

  lemma {:induction false} RunToHalt(s: State) returns (steps: seq<Step>)
    requires Inv(s) && s.sender.Collecting?
    ensures Run(s, steps) && Within(steps) && Halted(After(s, steps))
    decreases WorkLeft(s)
  {
    if step :| Enabled(s, step) && !step.Arrive? && !step.Pop? {
      RoundAdvances(s, step);
      var rest := RunToHalt(Next(s, step));
      steps := [step] + rest;
      assert steps[0] == step && steps[1..] == rest;
    } else {
      steps := [];
    }
  }

  /** An open round closes in every interleaving if and only if every counted client is past the test of
      the loop condition, with no leftover token to bring it back there. That is also when no run ever
      loses the ability to close. */
  lemma AlwaysClosesIffPastTest(s: State)
    requires Inv(s) && s.sender.Collecting?
    ensures AlwaysCloses(s) <==> PastTest(s)
    ensures PastTest(s) <==> forall steps :: Run(s, steps) && Within(steps) ==> CanClose(After(s, steps))
  {
    if PastTest(s) {
      forall steps | Run(s, steps) && Within(steps) && Halted(After(s, steps)) ensures Enabled(After(s, steps), Pop) {
        PastTestRun(s, steps);
        var step := SomeoneCanMove(After(s, steps));
      }
      forall steps | Run(s, steps) && Within(steps) ensures CanClose(After(s, steps)) {
        PastTestRun(s, steps);
      }
    } else {
      var a := RunToCannotClose(s);
      CollectingRun(s, a);
      var b := RunToHalt(After(s, a));
      CannotCloseRun(After(s, a), b);
      RunConcat(s, a, b);
      assert Within(a + b);
    }
  }

  /** Seen when its message is about to be pushed: a round is bound to close if and only if every counted
      client is waiting for the queue at that moment. */
  lemma AlwaysClosesIffAllWait(s: State)
    requires Inv(s) && s.sender.Opened?
    ensures AlwaysCloses(Next(s, Push))
       <==> forall c :: 0 <= c < |s.clients| && Registered(s.clients[c]) == 1 ==> s.clients[c].pc == Waiting
  {
    InvStep(s, Push);
    AlwaysClosesIffPastTest(Next(s, Push));
    if Total(InBarrier, s.clients) > 0 {
      var c := TotalPositive(InBarrier, s.clients);
      assert Registered(s.clients[c]) == 1 && s.clients[c].pc != Waiting;
    } else {
      forall c | 0 <= c < |s.clients| ensures InBarrier(s.clients[c]) == 0 && InCopy(s.clients[c]) == 0 {
        CountsMove(s.clients, c, s.clients[c]);
      }
    }
  }

  /** One counted client about to test the loop condition, and the message of a round pushed. */
  ghost function JustJoined(m: Message): State {
    State([Client(AtLoop(false), [])], 1, [m], 0, 0, false, Collecting(1, 0, false), [m], 0)
  }

  lemma JustJoinedIsReached(m: Message)
    ensures var steps := [Arrive, Join(0), Open(m, false), Push];
      Run(INITIAL, steps) && After(INITIAL, steps) == JustJoined(m)
  {
    var s1 := Next(INITIAL, Arrive);
    var s2 := Next(s1, Join(0));
    var s3 := Next(s2, Open(m, false));
    var s4 := Next(s3, Push);
    assert Run(s4, []) && After(s4, []) == s4;
    assert Run(s3, [Push]) && After(s3, [Push]) == s4;
    assert Run(s2, [Open(m, false), Push]) && After(s2, [Open(m, false), Push]) == s4;
    assert Run(s1, [Join(0), Open(m, false), Push]) && After(s1, [Join(0), Open(m, false), Push]) == s4;
  }

  /** Being able to close is not being bound to: a client that has just joined may still be cancelled. */
  lemma CanCloseIsNoPromise(m: Message)
    ensures var steps := [Arrive, Join(0), Open(m, false), Push];
      && Run(INITIAL, steps) && After(INITIAL, steps).sender.Collecting?
      && CanClose(After(INITIAL, steps)) && !AlwaysCloses(After(INITIAL, steps))
  {
    JustJoinedIsReached(m);
    ReachableIsBalanced([Arrive, Join(0), Open(m, false), Push]);
    hide Run, After, Inv, AlwaysCloses;
    AlwaysClosesIffPastTest(JustJoined(m));
    assert JustJoined(m).clients[0].pc.AtLoop?;
  }
}

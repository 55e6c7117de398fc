/** From the round that asks the clients to stop to an empty handler. */
module Shutdown {
  import opened Messages
  import opened Counting
  import opened Broadcast
  import opened Rounds
  import opened Delivery

  /** The round in progress is the one that asks the clients to stop. */
  predicate InLastRound(s: State) {
    match s.sender
    case Idle => false
    case Opened(_, _, last) => last
    case Collecting(_, _, last) => last
    case Stopping(_) => true
    case Releasing(_, _) => s.stopped
  }

  lemma {:induction false} StopsOrGoesOn(s: State, steps: seq<Step>)
    requires (InLastRound(s) || s.stopped) && Run(s, steps)
    ensures InLastRound(After(s, steps)) || After(s, steps).stopped
    decreases |steps|
  {
    if steps != [] {
      StopsOrGoesOn(Next(s, steps[0]), steps[1..]);
    }
  }

  /** Whenever the sender is idle again after opening a last round, the flag is set. */
  lemma LastRoundStops(s: State, m: Message, steps: seq<Step>)
    requires Enabled(s, Open(m, true)) && Run(Next(s, Open(m, true)), steps)
    requires After(Next(s, Open(m, true)), steps).sender.Idle?
    ensures Draining(After(Next(s, Open(m, true)), steps))
  {
    StopsOrGoesOn(Next(s, Open(m, true)), steps);
  }

  /** A last round is one that was opened as the last, ... */
  lemma {:induction false} LastRoundWasOpened(s: State, steps: seq<Step>)
    requires !InLastRound(s) && !s.stopped && Run(s, steps)
    requires InLastRound(After(s, steps)) || After(s, steps).stopped
    ensures exists k :: 0 <= k < |steps| && steps[k].Open? && steps[k].last
    decreases |steps|
  {
    if !(steps[0].Open? && steps[0].last) {
      LastRoundWasOpened(Next(s, steps[0]), steps[1..]);
      var j :| 0 <= j < |steps| - 1 && steps[1..][j].Open? && steps[1..][j].last;
      assert steps[j + 1] == steps[1..][j];
    }
  }

  /** ... and nothing but its pop leads to the flag being set. */
  lemma {:induction false} StoppedByLastRound(s: State, steps: seq<Step>) returns (k: nat)
    requires !s.stopped && !s.sender.Stopping? && Run(s, steps)
    requires After(s, steps).stopped || After(s, steps).sender.Stopping?
    ensures k < |steps| && steps[k].Pop? && Run(s, steps[..k])
    ensures After(s, steps[..k]).sender.Collecting? && After(s, steps[..k]).sender.last
    decreases |steps|
  {
    var s' := Next(s, steps[0]);
    if s'.sender.Stopping? {
      k := 0;
    } else {
      var j := StoppedByLastRound(s', steps[1..]);
      k := j + 1;
      assert steps[..k][0] == steps[0] && steps[..k][1..] == steps[1..][..j];
    }
  }

  /** In every run from the start, the flag is set only if a round was opened as the last, and popped. */
  lemma StoppedOnlyByLastRound(steps: seq<Step>) returns (k: nat)
    requires Run(INITIAL, steps) && After(INITIAL, steps).stopped
    ensures k < |steps| && steps[k].Pop? && Run(INITIAL, steps[..k])
    ensures After(INITIAL, steps[..k]).sender.Collecting? && After(INITIAL, steps[..k]).sender.last
    ensures exists j :: 0 <= j < k && steps[j].Open? && steps[j].last
  {
    k := StoppedByLastRound(INITIAL, steps);
    LastRoundWasOpened(INITIAL, steps[..k]);
    var j :| 0 <= j < k && steps[..k][j].Open? && steps[..k][j].last;
    assert steps[j] == steps[..k][j];
  }

  /** In every run from the start that opens a last round, completes it and opens no other, the clients
      have only boundedly many steps left, and when none is left every client is gone and nothing is left
      behind. */
  lemma ShutdownDrains(before: seq<Step>, m: Message, round: seq<Step>, drain: seq<Step>)
    requires Run(INITIAL, before) && Enabled(After(INITIAL, before), Open(m, true))
    requires Run(Next(After(INITIAL, before), Open(m, true)), round)
    requires var s := After(Next(After(INITIAL, before), Open(m, true)), round); s.sender.Idle? && Run(s, drain)
    requires forall k :: 0 <= k < |drain| ==> !drain[k].Open? && !drain[k].Arrive?
    ensures var s := After(Next(After(INITIAL, before), Open(m, true)), round);
      && |drain| <= Total(StepsToGo, s.clients)
      && var e := After(s, drain);
         CanDrain(e) || (Emptied(e) && forall c :: 0 <= c < |e.clients| ==> e.clients[c].pc.Gone?)
  {
    var start := After(INITIAL, before);
    ReachableIsBalanced(before);
    InvStep(start, Open(m, true));
    InvRun(Next(start, Open(m, true)), round);
    LastRoundStops(start, m, round);
    var s := After(Next(start, Open(m, true)), round);
    DrainIsBounded(s, drain);
    DrainEndsEmpty(After(s, drain));
  }

  /** No client counted, no message queued, no token of either kind. */
  predicate Emptied(s: State) {
    s.count == 0 && s.queue == [] && s.popTokens == 0 && s.loopTokens == 0
  }

  /** Once a round has popped, the sender needs nobody else to complete it. */
  lemma {:induction false} ReleaseCompletes(s: State) returns (steps: seq<Step>)
    requires Inv(s) && (s.sender.Stopping? || s.sender.Releasing?)
    ensures Run(s, steps) && Inv(After(s, steps)) && After(s, steps).sender.Idle?
    ensures After(s, steps).clients == s.clients
    decreases if s.sender.Stopping? then s.sender.n + 2 else s.sender.n - s.sender.j + 1
  {
    var step := if s.sender.Stopping? then Stop else if s.sender.j < s.sender.n then Release else Close;
    InvStep(s, step);
    var rest := [];
    if !step.Close? {
      rest := ReleaseCompletes(Next(s, step));
    } else {
      assert Run(Next(s, step), rest);
    }
    steps := [step] + rest;
    assert steps[0] == step && steps[1..] == rest;
  }

  lemma {:induction false} DrainCompletes(s: State) returns (steps: seq<Step>)
    requires Inv(s) && Draining(s)
    ensures Run(s, steps) && Inv(After(s, steps)) && Draining(After(s, steps)) && !CanDrain(After(s, steps))
    decreases Total(StepsToGo, s.clients)
  {
    if step :| Enabled(s, step) && !step.Open? && !step.Arrive? {
      DrainStep(s, step);
      var rest := DrainCompletes(Next(s, step));
      steps := [step] + rest;
      assert steps[0] == step && steps[1..] == rest;
    } else {
      steps := [];
    }
  }

  /** A shutdown may begin whenever the sender is idle. It is bound to reach its pop, and so to set the flag,
      if and only if every counted client is waiting for the queue when it begins. */
  lemma ShutdownIsSureIffAllWait(s: State, m: Message)
    requires Inv(s) && s.sender.Idle?
    ensures Enabled(s, Open(m, true)) && Enabled(Next(s, Open(m, true)), Push)
    ensures AlwaysCloses(Next(Next(s, Open(m, true)), Push))
       <==> forall c :: 0 <= c < |s.clients| && Registered(s.clients[c]) == 1 ==> s.clients[c].pc == Waiting
  {
    InvStep(s, Open(m, true));
    AlwaysClosesIffAllWait(Next(s, Open(m, true)));
  }

  /** From the pop of a last round on, the handler can be run until every client is gone. */
  lemma LastPopLeadsToEmpty(s: State) returns (steps: seq<Step>)
    requires Inv(s) && Enabled(s, Pop) && s.sender.last
    ensures Run(s, steps) && Emptied(After(s, steps))
    ensures forall c :: 0 <= c < |After(s, steps).clients| ==> After(s, steps).clients[c].pc.Gone?
  {
    InvStep(s, Pop);
    var popped := Next(s, Pop);
    var a := ReleaseCompletes(popped);
    StopsOrGoesOn(popped, a);
    var b := DrainCompletes(After(popped, a));
    RunConcat(popped, a, b);
    DrainEndsEmpty(After(After(popped, a), b));
    steps := [Pop] + (a + b);
    assert steps[0] == Pop && steps[1..] == a + b;
  }
}

/** How often each client receives a round's message, and how the handler drains after its last round. */
module Delivery {
  import opened Messages
  import opened Counting
  import opened Broadcast
  import opened Rounds

  // ------------------------------------------------------------------ copies per client

  function Taken(log: seq<Copy>, round: nat): nat {
    if log == [] then 0
    else Taken(log[..|log| - 1], round) + if log[|log| - 1].round == round then 1 else 0
  }

  ghost function TakenIn(round: nat): Client -> nat {
    (c: Client) => Taken(c.log, round)
  }

  ghost function Current(s: State): nat {
    if s.rounds == [] then 0 else |s.rounds| - 1
  }

  lemma TakenAppend(log: seq<Copy>, copy: Copy, round: nat)
    ensures Taken(log + [copy], round) == Taken(log, round) + if copy.round == round then 1 else 0
  {
    assert (log + [copy])[..|log|] == log;
  }

  lemma {:induction false} NothingTakenYet(log: seq<Copy>, rounds: seq<Message>, round: nat)
    requires LogInOrder(log, rounds) && |rounds| <= round
    ensures Taken(log, round) == 0
  {
    if log != [] {
      NothingTakenYet(log[..|log| - 1], rounds, round);
    }
  }

  /** During a round, `copies` is the sum of what the clients took of it, and only counted clients took any. */
  ghost predicate Accounted(s: State) {
    s.sender.Collecting? ==>
      && s.copies == Total(TakenIn(Current(s)), s.clients)
      && forall c {:trigger s.clients[c]} :: 0 <= c < |s.clients| && Registered(s.clients[c]) == 0 ==>
        Taken(s.clients[c].log, Current(s)) == 0
  }

  lemma {:induction false} TotalTakenZero(cs: seq<Client>, rounds: seq<Message>, round: nat)
    requires forall c :: 0 <= c < |cs| ==> LogInOrder(cs[c].log, rounds)
    requires |rounds| <= round
    ensures Total(TakenIn(round), cs) == 0
  {
    if cs != [] {
      TotalTakenZero(cs[..|cs| - 1], rounds, round);
      NothingTakenYet(cs[|cs| - 1].log, rounds, round);
    }
  }

  /** One step of a round changes one client's tally by at most one. */
  lemma TakenStep(s: State, step: Step, c: nat)
    requires Inv(s) && s.sender.Collecting? && Enabled(s, step) && c < |s.clients|
    ensures Taken(Next(s, step).clients[c].log, Current(s))
         == Taken(s.clients[c].log, Current(s)) + if step == FrontCopy(c) then 1 else 0
  {
    hide Logged, Total;
    if step.FrontCopy? && step.c == c {
      TakenAppend(s.clients[c].log, Copy(Current(s), s.queue[0]), Current(s));
    }
  }

  lemma NewcomerHasNone(round: nat)
    ensures Taken(Client(Joining, []).log, round) == 0
  {
  }

  lemma AccountedFromPush(s: State)
    requires Inv(s) && s.sender.Opened?
    ensures Accounted(Next(s, Push))
  {
    forall c | 0 <= c < |s.clients| ensures Taken(s.clients[c].log, |s.rounds|) == 0 {
      NothingTakenYet(s.clients[c].log, s.rounds, |s.rounds|);
    }
    TotalTakenZero(s.clients, s.rounds, |s.rounds|);
  }

  lemma AccountedStep(s: State, step: Step)
    requires Inv(s) && Accounted(s) && Enabled(s, step)
    ensures Accounted(Next(s, step))
  {
    hide Logged, LogInOrder, Total, Taken, Balanced;
    var s' := Next(s, step);
    if step.Push? {
      AccountedFromPush(s);
    } else if s'.sender.Collecting? {
      var round := Current(s);
      NewcomerHasNone(round);
      CollectingStep(s, step);
      forall c | 0 <= c < |s'.clients| && Registered(s'.clients[c]) == 0 ensures Taken(s'.clients[c].log, round) == 0 {
        if c < |s.clients| {
          TakenStep(s, step, c);
        }
      }
      if MovesClient(step) {
        TotalUpdate(TakenIn(round), s.clients, step.c, s'.clients[step.c]);
        TakenStep(s, step, step.c);
      } else if step.Arrive? {
        TotalAppend(TakenIn(round), s.clients, Client(Joining, []));
      }
    }
  }

  lemma {:induction false} AccountedRun(s: State, steps: seq<Step>)
    requires Inv(s) && Accounted(s) && Run(s, steps)
    ensures Inv(After(s, steps)) && Accounted(After(s, steps))
    decreases |steps|
  {
    if steps != [] {
      InvStep(s, steps[0]);
      AccountedStep(s, steps[0]);
      AccountedRun(Next(s, steps[0]), steps[1..]);
    }
  }

  lemma ReachableIsAccounted(steps: seq<Step>)
    requires Run(INITIAL, steps)
    ensures Inv(After(INITIAL, steps)) && Accounted(After(INITIAL, steps))
  {
    AccountedRun(INITIAL, steps);
  }

  /** In every run, when a round pops, the copies taken of its message total the client count. */
  lemma CopiesTotalTheCount(steps: seq<Step>)
    requires Run(INITIAL, steps) && Enabled(After(INITIAL, steps), Pop)
    ensures var s := After(INITIAL, steps); Total(TakenIn(Current(s)), s.clients) == s.count
  {
    ReachableIsAccounted(steps);
    BarrierAtPop(After(INITIAL, steps));
  }

  // ------------------------------------------------------------------ exactly once

  /** A round in which no leftover token is about: a client has taken the message exactly if it has
      passed the copy. */
  ghost predicate Clean(s: State) {
    && s.sender.Collecting? && s.loopTokens == 0
    && forall c {:trigger s.clients[c]} :: 0 <= c < |s.clients| ==>
         Taken(s.clients[c].log, Current(s)) == Copied(s.clients[c]) + InBarrier(s.clients[c])
  }

  lemma CleanStart(s: State)
    requires Inv(s) && s.sender.Opened? && s.loopTokens == 0
    ensures Inv(Next(s, Push)) && Clean(Next(s, Push))
  {
    hide LogInOrder, Taken;
    InvStep(s, Push);
    forall c | 0 <= c < |s.clients|
      ensures Taken(s.clients[c].log, |s.rounds|) == Copied(s.clients[c]) + InBarrier(s.clients[c])
    {
      NothingTakenYet(s.clients[c].log, s.rounds, |s.rounds|);
      CountsMove(s.clients, c, s.clients[c]);
    }
  }

  lemma CleanStep(s: State, step: Step)
    requires Inv(s) && Clean(s) && Enabled(s, step) && !step.Pop?
    ensures Clean(Next(s, step))
  {
    hide Logged, LogInOrder, Total, Balanced;
    var s' := Next(s, step);
    CollectingStep(s, step);
    forall c | 0 <= c < |s'.clients|
      ensures Taken(s'.clients[c].log, Current(s)) == Copied(s'.clients[c]) + InBarrier(s'.clients[c])
    {
      if c < |s.clients| {
        TakenStep(s, step, c);
      }
    }
  }

  lemma {:induction false} CleanRun(s: State, steps: seq<Step>)
    requires Inv(s) && Clean(s) && Run(s, steps) && Within(steps)
    ensures Inv(After(s, steps)) && Clean(After(s, steps))
    decreases |steps|
  {
    if steps != [] {
      CollectingStep(s, steps[0]);
      CleanStep(s, steps[0]);
      CleanRun(Next(s, steps[0]), steps[1..]);
    }
  }

  /** Every counted client has taken the current message once. */
  ghost predicate ServedOnce(s: State) {
    forall c {:trigger s.clients[c]} :: 0 <= c < |s.clients| && Registered(s.clients[c]) == 1 ==>
      Taken(s.clients[c].log, Current(s)) == 1
  }

  ghost predicate AlwaysOnce(s: State) {
    forall steps :: Run(s, steps) && Within(steps) && Enabled(After(s, steps), Pop) ==> ServedOnce(After(s, steps))
  }

  /** If no client is parked when a round is pushed, then however the threads interleave, every counted
      client takes its message exactly once by the time it pops. */
  lemma NobodyParkedMeansOnce(s: State, steps: seq<Step>)
    requires Inv(s) && s.sender.Opened? && s.loopTokens == 0
    requires Run(Next(s, Push), steps) && Within(steps) && Enabled(After(Next(s, Push), steps), Pop)
    ensures ServedOnce(After(Next(s, Push), steps))
  {
    var s1 := Next(s, Push);
    CleanStart(s);
    CleanRun(s1, steps);
    BarrierAtPop(After(s1, steps));
    var e := After(s1, steps);
    forall c | 0 <= c < |e.clients| && Registered(e.clients[c]) == 1 ensures Taken(e.clients[c].log, Current(e)) == 1 {
      assert InBarrier(e.clients[c]) == 1;
    }
  }

  /** A single client takes it exactly once too, whatever tokens are left. */
  lemma OneClientMeansOnce(s: State)
    requires Inv(s) && Accounted(s) && Enabled(s, Pop) && s.count <= 1
    ensures ServedOnce(s)
  {
    BarrierAtPop(s);
    forall c | 0 <= c < |s.clients| && Registered(s.clients[c]) == 1 ensures Taken(s.clients[c].log, Current(s)) == 1 {
      TotalIncludes(Registered, s.clients, c);
      OnlyOne(s.clients, c, Current(s));
    }
  }

  lemma {:induction false} OnlyOne(cs: seq<Client>, c: nat, round: nat)
    requires c < |cs| && Registered(cs[c]) == 1 && Total(Registered, cs) <= 1
    requires forall k :: 0 <= k < |cs| && Registered(cs[k]) == 0 ==> Taken(cs[k].log, round) == 0
    ensures Total(TakenIn(round), cs) == Taken(cs[c].log, round)
  {
    var n := |cs| - 1;
    if c == n {
      NoneTaken(cs[..n], round);
    } else {
      TotalIncludes(Registered, cs[..n], c);
      OnlyOne(cs[..n], c, round);
    }
  }

  lemma {:induction false} NoneTaken(cs: seq<Client>, round: nat)
    requires Total(Registered, cs) == 0
    requires forall k :: 0 <= k < |cs| && Registered(cs[k]) == 0 ==> Taken(cs[k].log, round) == 0
    ensures Total(TakenIn(round), cs) == 0
  {
    if cs != [] {
      NoneTaken(cs[..|cs| - 1], round);
    }
  }

  // ------------------------------------------------------------------ and only then

  /** Lowest number of loop tokens a client needs for its next copy. */
  function TokensNeeded(c: Client): nat {
    Copied(c) + InBarrier(c)
  }

  /** Steps a client makes, on its own, up to its next copy. */
  function Lap(c: Client): nat {
    match c.pc
    case Posting => 6
    case Writing => 5
    case Parked(_) => 4
    case AtLoop(_) => 3
    case Waiting => 2
    case Copying => 1
    case _ => 0
  }

  lemma MessageIsOut(s: State)
    requires Inv(s) && s.sender.Collecting?
    ensures s.queue != []
  {
  }

  lemma CanCloseMeans(s: State, c: nat)
    requires CanClose(s) && c < |s.clients|
    ensures !Doomed(s, c) && (s.loopTokens > 0 ==> !s.stopped)
  {
  }

  /** A client that can stay, and has the tokens, may take one more copy while everyone else stands still. */
  lemma {:induction false} OneMoreCopy(s: State, c: nat) returns (steps: seq<Step>)
    requires Inv(s) && s.sender.Collecting? && CanClose(s) && c < |s.clients| && CanLap(s, c)
    requires TokensNeeded(s.clients[c]) <= s.loopTokens
    ensures Run(s, steps) && Within(steps)
    ensures var e := After(s, steps);
      && Inv(e) && e.sender.Collecting? && CanClose(e) && e.rounds == s.rounds && c < |e.clients|
      && e.clients[c].pc == Posting && e.loopTokens == s.loopTokens - TokensNeeded(s.clients[c])
      && Taken(e.clients[c].log, Current(s)) == Taken(s.clients[c].log, Current(s)) + 1
    decreases Lap(s.clients[c])
  {
    hide Inv, Taken, CanClose;
    MessageIsOut(s);
    assert !Doomed(s, c) && (s.loopTokens > 0 ==> !s.stopped) by { CanCloseMeans(s, c); }
    var step := match s.clients[c].pc
      case Posting => Post(c)
      case Writing => Write(c, true)
      case Parked(_) => Pass(c)
      case AtLoop(_) => Check(c, false)
      case Waiting => WaitFor(c)
      case _ => FrontCopy(c);
    var s' := Next(s, step);
    CollectingStep(s, step);
    StillCanClose(s, step);
    TakenStep(s, step, c);
    if step.FrontCopy? {
      steps := [step];
      assert Run(s', steps[1..]);
    } else {
      var rest := OneMoreCopy(s', c);
      steps := [step] + rest;
      assert steps[0] == step && steps[1..] == rest;
    }
  }

  /** Copies are never taken back. */
  lemma {:induction false} TakenGrows(s: State, steps: seq<Step>, c: nat)
    requires Inv(s) && s.sender.Collecting? && Run(s, steps) && Within(steps) && c < |s.clients|
    ensures c < |After(s, steps).clients| && After(s, steps).rounds == s.rounds
    ensures Taken(s.clients[c].log, Current(s)) <= Taken(After(s, steps).clients[c].log, Current(s))
    ensures Registered(After(s, steps).clients[c]) == Registered(s.clients[c])
    decreases |steps|
  {
    if steps != [] {
      CollectingStep(s, steps[0]);
      TakenStep(s, steps[0], c);
      TakenGrows(Next(s, steps[0]), steps[1..], c);
    }
  }

  lemma PostingNeedsOne(s: State, c: nat)
    ensures c < |s.clients| && s.clients[c].pc == Posting ==>
      CanLap(s, c) && TokensNeeded(s.clients[c]) == 1 && Registered(s.clients[c]) == 1
    ensures c < |s.clients| && CanLap(s, c) ==> Registered(s.clients[c]) == 1
  {
  }

  /** From two copies by one client in an open round to a pop at which it was not served once. */
  lemma ServedTwice(s: State, c: nat)
    requires Inv(s) && s.sender.Collecting? && CanClose(s) && c < |s.clients| && CanLap(s, c)
    requires TokensNeeded(s.clients[c]) + 1 <= s.loopTokens
    ensures !AlwaysOnce(s)
  {
    hide Inv, Taken, CanClose, Enabled, Next, TokensNeeded, CanLap;
    PostingNeedsOne(s, c);
    var a := OneMoreCopy(s, c);
    var s1 := After(s, a);
    PostingNeedsOne(s1, c);
    var b := OneMoreCopy(s1, c);
    var s2 := After(s1, b);
    var d := RunToClose(s2);
    RunConcat(s, a, b);
    RunConcat(s, a + b, d);
    TakenGrows(s, a + b + d, c);
    TakenGrows(s2, d, c);
    assert Within(a + b + d);
    assert !ServedOnce(After(s, a + b + d));
  }

  /** Some client can take two copies of a round as soon as a token is left over and there are two clients. */
  lemma TwiceIsPossible(s: State) returns (c: nat)
    requires Inv(s) && s.sender.Collecting? && s.sender.i == 0 && s.popTokens == 0 && s.copies == 0
    requires CanClose(s) && s.loopTokens > 0 && s.count > 1
    ensures c < |s.clients| && CanLap(s, c) && TokensNeeded(s.clients[c]) + 1 <= s.loopTokens
  {
    if s.loopTokens == 1 {
      c := TotalGap(InBarrier, Registered, s.clients);
    } else {
      c :| 0 <= c < |s.clients| && CanLap(s, c);
    }
    TotalIncludes(Copied, s.clients, c);
  }

  /** Exactly once, in every run of a round that can close, if and only if no client was parked when the
      round was pushed or there is at most one client. */
  lemma OnceIffNobodyParked(s: State)
    requires Inv(s) && Accounted(s) && s.sender.Opened? && CanClose(Next(s, Push))
    ensures AlwaysOnce(Next(s, Push)) <==> Total(InBarrier, s.clients) == 0 || s.count <= 1
  {
    var s1 := Next(s, Push);
    InvStep(s, Push);
    AccountedStep(s, Push);
    if s.loopTokens == 0 || s.count <= 1 {
      forall steps | Run(s1, steps) && Within(steps) && Enabled(After(s1, steps), Pop)
        ensures ServedOnce(After(s1, steps))
      {
        if s.loopTokens == 0 {
          NobodyParkedMeansOnce(s, steps);
        } else {
          AccountedRun(s1, steps);
          CollectingRun(s1, steps);
          OneClientMeansOnce(After(s1, steps));
        }
      }
    } else {
      var c := TwiceIsPossible(s1);
      ServedTwice(s1, c);
    }
  }

  /** A round that is bound to close serves every counted client exactly once. */
  lemma SureRoundServesOnce(s: State)
    requires Inv(s) && s.sender.Opened? && AlwaysCloses(Next(s, Push))
    ensures AlwaysOnce(Next(s, Push))
  {
    AlwaysClosesIffAllWait(s);
    if Total(InBarrier, s.clients) > 0 {
      var c := TotalPositive(InBarrier, s.clients);
      assert false;
    }
    forall steps | Run(Next(s, Push), steps) && Within(steps) && Enabled(After(Next(s, Push), steps), Pop)
      ensures ServedOnce(After(Next(s, Push), steps))
    {
      NobodyParkedMeansOnce(s, steps);
    }
  }

  // ------------------------------------------------------------------ after the last round

  /** The last round is over and no further round begins. */
  ghost predicate Draining(s: State) {
    s.stopped && s.sender.Idle?
  }

  function StepsToGo(c: Client): nat {
    match c.pc
    case Joining => 6
    case Copying => 6
    case Posting => 5
    case Writing => 4
    case Parked(_) => 3
    case Waiting => 3
    case AtLoop(_) => 2
    case Leaving => 1
    case Gone => 0
  }

  /** Every step of a drain brings its client closer to the end. */
  lemma DrainStep(s: State, step: Step)
    requires Inv(s) && Draining(s) && Enabled(s, step) && !step.Open? && !step.Arrive?
    ensures Inv(Next(s, step)) && Draining(Next(s, step))
    ensures Total(StepsToGo, Next(s, step).clients) < Total(StepsToGo, s.clients)
  {
    hide Logged, LogInOrder, Total;
    InvStep(s, step);
    CountsMove(s.clients, step.c, s.clients[step.c]);
    TotalUpdate(StepsToGo, s.clients, step.c, Next(s, step).clients[step.c]);
    TotalIncludes(StepsToGo, s.clients, step.c);
  }

  lemma {:induction false} DrainIsBounded(s: State, steps: seq<Step>)
    requires Inv(s) && Draining(s) && Run(s, steps)
    requires forall k :: 0 <= k < |steps| ==> !steps[k].Open? && !steps[k].Arrive?
    ensures Inv(After(s, steps)) && Draining(After(s, steps))
    ensures |steps| + Total(StepsToGo, After(s, steps).clients) <= Total(StepsToGo, s.clients)
    decreases |steps|
  {
    if steps != [] {
      DrainStep(s, steps[0]);
      DrainIsBounded(Next(s, steps[0]), steps[1..]);
    }
  }

  ghost predicate CanDrain(s: State) {
    exists step :: Enabled(s, step) && !step.Open? && !step.Arrive?
  }

  /** A drain stops only when every client is gone, and then nothing is left behind: no client counted or
      parked, no message queued, no token of either kind. Clients that join meanwhile leave as well. */
  lemma DrainEndsEmpty(s: State)
    requires Inv(s) && Draining(s)
    ensures CanDrain(s) <==> exists c :: 0 <= c < |s.clients| && !s.clients[c].pc.Gone?
    ensures !CanDrain(s) ==> s.count == 0 && s.queue == [] && s.popTokens == 0 && s.loopTokens == 0
  {
    if c: nat :| c < |s.clients| && !s.clients[c].pc.Gone? {
      TotalIncludes(InCopy, s.clients, c);
      TotalIncludes(InBarrier, s.clients, c);
      var step := match s.clients[c].pc
        case Joining => Join(c)
        case AtLoop(_) => Check(c, false)
        case Waiting => WaitFor(c)
        case Writing => Write(c, true)
        case Parked(_) => Pass(c)
        case Leaving => Leave(c)
        case _ => Arrive;
      assert Enabled(s, step) && !step.Open? && !step.Arrive?;
    } else {
      if Total(Registered, s.clients) > 0 { var c := TotalPositive(Registered, s.clients); }
      if Total(InBarrier, s.clients) > 0 { var c := TotalPositive(InBarrier, s.clients); }
    }
  }
}

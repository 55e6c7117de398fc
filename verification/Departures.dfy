/** When a client leaves the loop, and what it still receives once it is bound to. */
module Departures {
  import opened Messages
  import opened Broadcast

  /** What can make client `c` leave: the shutdown flag, its own cancelled context, its own broken stream. */
  predicate Cause(step: Step, c: nat) {
    step.Stop? || step == Check(c, true) || step == Write(c, false)
  }

  /** Client `c`, once it has arrived, is in the handler to stay. */
  ghost predicate Staying(s: State, c: nat) {
    !s.stopped && (c < |s.clients| ==> !BoundToLeave(s.clients[c]))
  }

  /** Broken, out of the loop or gone. */
  predicate BoundToLeave(c: Client) {
    c.pc == Parked(true) || c.pc == AtLoop(true) || c.pc.Leaving? || c.pc.Gone?
  }

  /** A client stays through every run in which nothing makes it leave: waiting in vain does not, nor does
      anything that happens to other clients. */
  lemma {:induction false} StaysWithoutCause(s: State, steps: seq<Step>, c: nat)
    requires Staying(s, c) && Run(s, steps) && forall k :: 0 <= k < |steps| ==> !Cause(steps[k], c)
    ensures Staying(After(s, steps), c)
    decreases |steps|
  {
    if steps != [] {
      StaysWithoutCause(Next(s, steps[0]), steps[1..], c);
    }
  }

  /** In every run from the start, a client that has left has been given a cause. */
  lemma LeavesOnlyForCause(steps: seq<Step>, c: nat)
    requires Run(INITIAL, steps) && c < |After(INITIAL, steps).clients|
    requires BoundToLeave(After(INITIAL, steps).clients[c])
    ensures exists k :: 0 <= k < |steps| && Cause(steps[k], c)
  {
    if forall k :: 0 <= k < |steps| ==> !Cause(steps[k], c) {
      StaysWithoutCause(INITIAL, steps, c);
    }
  }

  lemma {:induction false} BoundTakesNoCopy(s: State, steps: seq<Step>, c: nat)
    requires c < |s.clients| && BoundToLeave(s.clients[c]) && Run(s, steps)
    ensures c < |After(s, steps).clients| && BoundToLeave(After(s, steps).clients[c])
    ensures After(s, steps).clients[c].log == s.clients[c].log
    decreases |steps|
  {
    if steps != [] {
      BoundTakesNoCopy(Next(s, steps[0]), steps[1..], c);
    }
  }

  /** After a failed write, or a test that found its context cancelled, a client takes no further copy. */
  lemma NoCopyAfterCause(s: State, step: Step, c: nat, steps: seq<Step>)
    requires Enabled(s, step) && (step == Write(c, false) || step == Check(c, true)) && Run(Next(s, step), steps)
    ensures c < |After(Next(s, step), steps).clients|
    ensures After(Next(s, step), steps).clients[c].log == s.clients[c].log
  {
    BoundTakesNoCopy(Next(s, step), steps, c);
  }

  /** Copies a client can still take once the shutdown flag is set. */
  function MayCopy(c: Client): nat {
    if c.pc.Waiting? || c.pc.Copying? then 1 else 0
  }

  /** After the flag is set, a client that is already waiting for a message takes at most one more copy, and
      every other client none. */
  lemma {:induction false} StoppedCopiesAtMostOnce(s: State, steps: seq<Step>, c: nat)
    requires s.stopped && c < |s.clients| && Run(s, steps)
    ensures c < |After(s, steps).clients| && After(s, steps).stopped
    ensures |After(s, steps).clients[c].log| + MayCopy(After(s, steps).clients[c])
         <= |s.clients[c].log| + MayCopy(s.clients[c])
    decreases |steps|
  {
    if steps != [] {
      StoppedCopiesAtMostOnce(Next(s, steps[0]), steps[1..], c);
    }
  }

  /** A failed write can happen at any write, and it costs the client its place: with a loop token at hand
      it goes straight on to leave. */
  lemma FailedWriteLeaves(s: State, c: nat)
    requires At(s, c, Writing) && s.loopTokens > 0
    ensures var steps := [Write(c, false), Pass(c), Check(c, false)];
      Run(s, steps) && At(After(s, steps), c, Leaving)
  {
    var s1 := Next(s, Write(c, false));
    var s2 := Next(s1, Pass(c));
    var s3 := Next(s2, Check(c, false));
    assert Run(s3, []) && After(s3, []) == s3;
    assert Run(s2, [Check(c, false)]) && After(s2, [Check(c, false)]) == s3;
    assert Run(s1, [Pass(c), Check(c, false)]) && After(s1, [Pass(c), Check(c, false)]) == s3;
  }

  /** A client that arrives once the flag is set is let in, and goes without a copy. */
  lemma LatecomerGoesEmptyHanded(s: State)
    requires s.stopped && s.sender.Idle?
    ensures var c := |s.clients|;
      var steps := [Arrive, Join(c), Check(c, false), Leave(c)];
      Run(s, steps) && After(s, steps) == s.(clients := s.clients + [Client(Gone, [])])
  {
    var c := |s.clients|;
    var s1 := Next(s, Arrive);
    var s2 := Next(s1, Join(c));
    var s3 := Next(s2, Check(c, false));
    var s4 := Next(s3, Leave(c));
    assert s4.clients == s.clients + [Client(Gone, [])];
    assert Run(s4, []) && After(s4, []) == s4;
    assert Run(s3, [Leave(c)]) && After(s3, [Leave(c)]) == s4;
    assert Run(s2, [Check(c, false), Leave(c)]) && After(s2, [Check(c, false), Leave(c)]) == s4;
    assert Run(s1, [Join(c), Check(c, false), Leave(c)]) && After(s1, [Join(c), Check(c, false), Leave(c)]) == s4;
  }
}

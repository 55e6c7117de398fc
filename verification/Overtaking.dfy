/** A run in which a fast client is served twice and a slow one not at all. */
module Overtaking {
  import opened Messages
  import opened Counting
  import opened Broadcast
  import opened Rounds
  import opened Delivery

  /** One more step at the end of a run. */
  lemma Then(s: State, before: seq<Step>, step: Step) returns (steps: seq<Step>)
    requires Run(s, before) && Enabled(After(s, before), step)
    ensures steps == before + [step] && Run(s, steps) && After(s, steps) == Next(After(s, before), step)
  {
    var last := After(s, before);
    assert [step][1..] == [];
    assert Run(Next(last, step), []) && Run(last, [step]) && After(last, [step]) == Next(last, step);
    RunConcat(s, before, [step]);
    steps := before + [step];
  }

  /** Two clients, both waiting for a message. */
  const BOTH_WAIT := State([Client(Waiting, []), Client(Waiting, [])], 2, [], 0, 0, false, Idle, [], 0)

  lemma BothArrive() returns (steps: seq<Step>)
    ensures Run(INITIAL, steps) && After(INITIAL, steps) == BOTH_WAIT
  {
    hide Run, After;
    steps := Start(INITIAL);
    steps := Then(INITIAL, steps, Arrive);
    steps := Then(INITIAL, steps, Arrive);
    steps := Then(INITIAL, steps, Join(0));
    steps := Then(INITIAL, steps, Join(1));
    steps := Then(INITIAL, steps, Check(0, false));
    steps := Then(INITIAL, steps, Check(1, false));
  }

  lemma Start(s: State) returns (steps: seq<Step>)
    ensures steps == [] && Run(s, steps) && After(s, steps) == s
  {
    steps := [];
  }

  /** Both have been served the first message and are parked. */
  ghost function BothParked(m: Message): State {
    var parked := Client(Parked(false), [Copy(0, m)]);
    State([parked, parked], 2, [m], 2, 0, false, Collecting(2, 0, false), [m], 2)
  }

  lemma FirstRound(m: Message) returns (steps: seq<Step>)
    ensures Run(BOTH_WAIT, steps) && After(BOTH_WAIT, steps) == BothParked(m)
  {
    hide Run, After;
    steps := Start(BOTH_WAIT);
    steps := Then(BOTH_WAIT, steps, Open(m, false));
    steps := Then(BOTH_WAIT, steps, Push);
    steps := Then(BOTH_WAIT, steps, WaitFor(0));
    steps := Then(BOTH_WAIT, steps, FrontCopy(0));
    steps := Then(BOTH_WAIT, steps, Post(0));
    steps := Then(BOTH_WAIT, steps, Write(0, true));
    steps := Then(BOTH_WAIT, steps, WaitFor(1));
    steps := Then(BOTH_WAIT, steps, FrontCopy(1));
    steps := Then(BOTH_WAIT, steps, Post(1));
    steps := Then(BOTH_WAIT, steps, Write(1, true));
    var e, x := After(BOTH_WAIT, steps), BothParked(m);
    assert e.clients[0].log == x.clients[0].log && e.clients[1].log == x.clients[1].log;
    assert e.clients == x.clients && e.queue == x.queue && e.rounds == x.rounds;
  }

  /** The next round opens after client 1 has gone on, while client 0 is still parked. */
  ghost function SlowParked(m: Message, next: Message): State {
    State([Client(Parked(false), [Copy(0, m)]), Client(AtLoop(false), [Copy(0, m)])],
          2, [], 0, 1, false, Opened(2, next, false), [m], 2)
  }

  lemma NextRoundOpens(m: Message, next: Message) returns (steps: seq<Step>)
    ensures Run(BothParked(m), steps) && After(BothParked(m), steps) == SlowParked(m, next)
  {
    hide Run, After;
    var s := BothParked(m);
    steps := Start(s);
    steps := Then(s, steps, Collect);
    steps := Then(s, steps, Collect);
    steps := Then(s, steps, Pop);
    steps := Then(s, steps, Release);
    steps := Then(s, steps, Release);
    steps := Then(s, steps, Close);
    steps := Then(s, steps, Pass(1));
    steps := Then(s, steps, Open(next, false));
  }

  /** The end of the second round: client 1 has copied its message twice, client 0 never. */
  ghost function FastServedTwice(m: Message, next: Message): State {
    State([Client(Parked(false), [Copy(0, m)]), Client(Writing, [Copy(0, m), Copy(1, next), Copy(1, next)])],
          2, [next], 0, 0, false, Collecting(2, 2, false), [m, next], 2)
  }

  /** Halfway: client 1 has used the token meant for client 0. */
  ghost function FastAhead(m: Message, next: Message): State {
    State([Client(Parked(false), [Copy(0, m)]), Client(AtLoop(false), [Copy(0, m), Copy(1, next)])],
          2, [next], 1, 0, false, Collecting(2, 0, false), [m, next], 1)
  }

  lemma FastClientTakesToken(m: Message, next: Message) returns (steps: seq<Step>)
    ensures var s := Next(SlowParked(m, next), Push);
      Run(s, steps) && Within(steps) && After(s, steps) == FastAhead(m, next)
  {
    hide Run, After;
    var s := Next(SlowParked(m, next), Push);
    steps := Start(s);
    steps := Then(s, steps, Check(1, false));
    steps := Then(s, steps, WaitFor(1));
    steps := Then(s, steps, FrontCopy(1));
    steps := Then(s, steps, Post(1));
    steps := Then(s, steps, Write(1, true));
    steps := Then(s, steps, Pass(1));
    var e, x := After(s, steps), FastAhead(m, next);
    assert e.clients[0].log == x.clients[0].log && e.clients[1].log == x.clients[1].log;
    assert e.clients == x.clients && e.queue == x.queue && e.rounds == x.rounds;
  }

  lemma FastClientLaps(m: Message, next: Message) returns (steps: seq<Step>)
    ensures Run(FastAhead(m, next), steps) && Within(steps)
    ensures After(FastAhead(m, next), steps) == FastServedTwice(m, next)
  {
    hide Run, After;
    var s := FastAhead(m, next);
    steps := Start(s);
    steps := Then(s, steps, Check(1, false));
    steps := Then(s, steps, WaitFor(1));
    steps := Then(s, steps, FrontCopy(1));
    steps := Then(s, steps, Post(1));
    steps := Then(s, steps, Collect);
    steps := Then(s, steps, Collect);
    var e, x := After(s, steps), FastServedTwice(m, next);
    assert e.clients[0].log == x.clients[0].log && e.clients[1].log == x.clients[1].log;
    assert e.clients == x.clients && e.queue == x.queue && e.rounds == x.rounds;
  }

  /** From the start of the handler to the opening of that round. */
  lemma SlowIsReached(m: Message, next: Message) returns (steps: seq<Step>)
    ensures Run(INITIAL, steps) && After(INITIAL, steps) == SlowParked(m, next)
  {
    hide Run, After, BothParked, SlowParked, INITIAL, BOTH_WAIT;
    var a := BothArrive();
    var b := FirstRound(m);
    var c := NextRoundOpens(m, next);
    RunConcat(INITIAL, a, b);
    RunConcat(INITIAL, a + b, c);
    steps := a + b + c;
  }

  /** In a run of two clients, a round is pushed while client 0 is parked and served twice to client 1;
      when it pops, client 0 has not had it. So it can close, but not every run serves everyone once. */
  lemma SlowClientIsOvertaken(m: Message, next: Message) returns (before: seq<Step>, during: seq<Step>)
    ensures Run(INITIAL, before)
    ensures var s := After(INITIAL, before);
      && s.sender == Opened(2, next, false) && s.count == 2 && Total(InBarrier, s.clients) == 1
      && CanClose(Next(s, Push)) && !AlwaysOnce(Next(s, Push))
      && Run(Next(s, Push), during) && Within(during)
      && var e := After(Next(s, Push), during);
         Enabled(e, Pop) && |e.clients| == 2 && Taken(e.clients[0].log, 1) == 0 && Taken(e.clients[1].log, 1) == 2
  {
    hide Run, After, Inv, Accounted, AlwaysOnce, Taken, Total, CanClose, SlowParked, FastServedTwice, FastAhead, Next;
    OneIsParked(m, next);
    LogsAtTheEnd(m, next);
    before := SlowIsReached(m, next);
    ReachableIsAccounted(before);
    OnceIffNobodyParked(SlowParked(m, next));
    var d := FastClientTakesToken(m, next);
    var e := FastClientLaps(m, next);
    RunConcat(Next(SlowParked(m, next), Push), d, e);
    during := d + e;
  }

  lemma OneIsParked(m: Message, next: Message)
    ensures var s := SlowParked(m, next);
      && s.sender == Opened(2, next, false) && s.count == 2 && Total(InBarrier, s.clients) == 1
      && CanClose(Next(s, Push))
  {
    var s := SlowParked(m, next);
    assert s.clients[..1][..0] == [];
    assert Total(InBarrier, s.clients[..1]) == 1;
    assert CanLap(Next(s, Push), 0);
  }

  lemma LogsAtTheEnd(m: Message, next: Message)
    ensures var e := FastServedTwice(m, next);
      Enabled(e, Pop) && |e.clients| == 2 && Taken(e.clients[0].log, 1) == 0 && Taken(e.clients[1].log, 1) == 2
  {
    TakenAppend([], Copy(0, m), 1);
    TakenAppend([Copy(0, m)], Copy(1, next), 1);
    TakenAppend([Copy(0, m), Copy(1, next)], Copy(1, next), 1);
    assert [Copy(0, m), Copy(1, next)] == [Copy(0, m)] + [Copy(1, next)];
    assert [Copy(0, m), Copy(1, next), Copy(1, next)] == [Copy(0, m), Copy(1, next)] + [Copy(1, next)];
    assert [Copy(0, m)] == [] + [Copy(0, m)];
  }
}

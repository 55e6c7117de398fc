/** The broadcast of one message to all streaming clients, as an interleaving of atomic steps. */
module Broadcast {
  import opened Messages
  import opened Counting

  // ------------------------------------------------------------------ clients

  /** Where a client thread stands in `handle_client`. */
  datatype Pc =
    | Joining                // about to add itself to the count
    | AtLoop(broken: bool)   // about to test the loop condition
    | Waiting                // inside `queue_.wait_for`
    | Copying                // told that the queue is not empty, about to copy its front
    | Posting                // about to notify `pop_block_`
    | Writing                // about to write to its stream
    | Parked(broken: bool)   // about to wait on `loop_block_`
    | Leaving                // out of the loop, about to subtract itself from the count
    | Gone

  /** One copy taken: the round it belongs to and the message read. */
  datatype Copy = Copy(round: nat, message: Message)

  datatype Client = Client(pc: Pc, log: seq<Copy>)

  // ------------------------------------------------------------------ the sender

  /** The thread that holds the client count locked, if any. A round is for `n` clients; the last round
      is the one that asks them to stop. */
  datatype Sender =
    | Idle
    | Opened(n: int, message: Message, last: bool)
    | Collecting(n: int, i: nat, last: bool)
    | Stopping(n: int)
    | Releasing(n: int, j: nat)

  /** `rounds` records the messages pushed so far, and `copies` the copies taken of the latest one. */
  datatype State = State(
    clients: seq<Client>,
    count: int,
    queue: seq<Message>,
    popTokens: nat,
    loopTokens: nat,
    stopped: bool,
    sender: Sender,
    rounds: seq<Message>,
    copies: nat)

  const INITIAL := State([], 0, [], 0, 0, false, Idle, [], 0)

  datatype Step =
    | Arrive
    | Join(c: nat)
    | Check(c: nat, cancelled: bool)
    | WaitFor(c: nat)
    | FrontCopy(c: nat)
    | Post(c: nat)
    | Write(c: nat, ok: bool)
    | Pass(c: nat)
    | Leave(c: nat)
    | Open(message: Message, last: bool)
    | Push
    | Collect
    | Pop
    | Stop
    | Release
    | Close

  predicate At(s: State, c: nat, pc: Pc) {
    c < |s.clients| && s.clients[c].pc == pc
  }

  /** A step that would block is not enabled. */
  predicate Enabled(s: State, step: Step) {
    match step
    case Arrive => true
    case Join(c) => At(s, c, Joining) && s.sender.Idle?
    case Check(c, _) => c < |s.clients| && s.clients[c].pc.AtLoop?
    case WaitFor(c) => At(s, c, Waiting)
    case FrontCopy(c) => At(s, c, Copying) && s.queue != []
    case Post(c) => At(s, c, Posting)
    case Write(c, _) => At(s, c, Writing)
    case Pass(c) => c < |s.clients| && s.clients[c].pc.Parked? && s.loopTokens > 0
    case Leave(c) => At(s, c, Leaving) && s.sender.Idle?
    case Open(_, _) => s.sender.Idle?
    case Push => s.sender.Opened?
    case Collect => s.sender.Collecting? && s.sender.i < s.sender.n && s.popTokens > 0
    case Pop => s.sender.Collecting? && s.sender.i >= s.sender.n && s.queue != []
    case Stop => s.sender.Stopping?
    case Release => s.sender.Releasing? && s.sender.j < s.sender.n
    case Close => s.sender.Releasing? && s.sender.j >= s.sender.n
  }

  function Move(s: State, c: nat, pc: Pc): State
    requires c < |s.clients|
  {
    s.(clients := s.clients[c := s.clients[c].(pc := pc)])
  }

  function Next(s: State, step: Step): State
    requires Enabled(s, step)
  {
    match step
    case Arrive => s.(clients := s.clients + [Client(Joining, [])])
    case Join(c) => Move(s, c, AtLoop(false)).(count := s.count + 1)
    case Check(c, cancelled) =>
      Move(s, c, if !s.clients[c].pc.broken && !s.stopped && !cancelled then Waiting else Leaving)
    case WaitFor(c) => Move(s, c, if s.queue != [] then Copying else AtLoop(false))
    case FrontCopy(c) =>
      var round := if s.rounds == [] then 0 else |s.rounds| - 1;
      s.(clients := s.clients[c := Client(Posting, s.clients[c].log + [Copy(round, s.queue[0])])],
         copies := s.copies + 1)
    case Post(c) => Move(s, c, Writing).(popTokens := s.popTokens + 1)
    case Write(c, ok) => Move(s, c, Parked(!ok))
    case Pass(c) => Move(s, c, AtLoop(s.clients[c].pc.broken)).(loopTokens := s.loopTokens - 1)
    case Leave(c) => Move(s, c, Gone).(count := s.count - 1)
    case Open(message, last) => s.(sender := Opened(s.count, message, last))
    case Push =>
      s.(queue := s.queue + [s.sender.message], rounds := s.rounds + [s.sender.message], copies := 0,
         sender := Collecting(s.sender.n, 0, s.sender.last))
    case Collect => s.(popTokens := s.popTokens - 1, sender := s.sender.(i := s.sender.i + 1))
    case Pop =>
      s.(queue := s.queue[1..], sender := if s.sender.last then Stopping(s.sender.n) else Releasing(s.sender.n, 0))
    case Stop => s.(stopped := true, sender := Releasing(s.sender.n, 0))
    case Release => s.(loopTokens := s.loopTokens + 1, sender := s.sender.(j := s.sender.j + 1))
    case Close => s.(sender := Idle)
  }

  /** A run, and the state it ends in. */
  ghost predicate Run(s: State, steps: seq<Step>)
    decreases |steps|
  {
    steps == [] || (Enabled(s, steps[0]) && Run(Next(s, steps[0]), steps[1..]))
  }

  ghost function After(s: State, steps: seq<Step>): State
    requires Run(s, steps)
    decreases |steps|
  {
    if steps == [] then s else After(Next(s, steps[0]), steps[1..])
  }

  // ------------------------------------------------------------------ the counting invariant

  /** Counted: after the increment, before the decrement. */
  function Registered(c: Client): nat {
    if c.pc.Joining? || c.pc.Gone? then 0 else 1
  }

  /** Between the post on `pop_block_` and the return of the wait on `loop_block_`. */
  function InBarrier(c: Client): nat {
    if c.pc.Writing? || c.pc.Parked? then 1 else 0
  }

  /** Holding the queue's front or about to. */
  function InCopy(c: Client): nat {
    if c.pc.Copying? || c.pc.Posting? then 1 else 0
  }

  function Copied(c: Client): nat {
    if c.pc.Posting? then 1 else 0
  }

  /** A client's copies are messages of rounds, in the order of the rounds. */
  ghost predicate LogInOrder(log: seq<Copy>, rounds: seq<Message>) {
    && (forall k :: 0 <= k < |log| ==> log[k].round < |rounds| && log[k].message == rounds[log[k].round])
    && (forall j, k :: 0 <= j < k < |log| ==> log[j].round <= log[k].round)
  }

  ghost predicate Logged(s: State) {
    forall c {:trigger s.clients[c]} :: 0 <= c < |s.clients| ==> LogInOrder(s.clients[c].log, s.rounds)
  }

  /** Outside a round's collection there is no message to copy and nobody copying. */
  ghost predicate Quiet(s: State) {
    s.queue == [] && s.popTokens == 0 && Total(InCopy, s.clients) == 0
  }

  ghost predicate Balanced(s: State) {
    var parked := Total(InBarrier, s.clients);
    match s.sender
    case Idle => Quiet(s) && s.loopTokens == parked
    case Opened(n, _, _) => Quiet(s) && s.loopTokens == parked && n == s.count
    case Collecting(n, i, _) =>
      && n == s.count && i <= n
      && s.rounds != [] && s.queue == [s.rounds[|s.rounds| - 1]]
      && i + s.popTokens + s.loopTokens == parked
      && s.copies == i + s.popTokens + Total(Copied, s.clients)
    case Stopping(n) => Quiet(s) && n == s.count && s.loopTokens == 0 && parked == n
    case Releasing(n, j) => Quiet(s) && n == s.count && j <= n && s.loopTokens + (n - j) == parked
  }

  ghost predicate Inv(s: State) {
    Total(Registered, s.clients) == s.count && Balanced(s) && Logged(s)
  }

  lemma CountsMove(cs: seq<Client>, c: nat, x: Client)
    requires c < |cs|
    ensures Total(Registered, cs[c := x]) == Total(Registered, cs) - Registered(cs[c]) + Registered(x)
    ensures Total(InBarrier, cs[c := x]) == Total(InBarrier, cs) - InBarrier(cs[c]) + InBarrier(x)
    ensures Total(InCopy, cs[c := x]) == Total(InCopy, cs) - InCopy(cs[c]) + InCopy(x)
    ensures Total(Copied, cs[c := x]) == Total(Copied, cs) - Copied(cs[c]) + Copied(x)
    ensures Registered(cs[c]) <= Total(Registered, cs) && InCopy(cs[c]) <= Total(InCopy, cs)
    ensures InBarrier(cs[c]) <= Total(InBarrier, cs) && Copied(cs[c]) <= Total(Copied, cs)
  {
    TotalUpdate(Registered, cs, c, x);
    TotalUpdate(InBarrier, cs, c, x);
    TotalUpdate(InCopy, cs, c, x);
    TotalUpdate(Copied, cs, c, x);
    TotalIncludes(Registered, cs, c);
    TotalIncludes(InBarrier, cs, c);
    TotalIncludes(InCopy, cs, c);
    TotalIncludes(Copied, cs, c);
  }

  /** The barrier: when the sender is about to pop, every registered client has taken exactly one post's
      worth of copies, all of them wait for a loop token, and no token of either kind is left. */
  lemma BarrierAtPop(s: State)
    requires Inv(s) && s.sender.Collecting? && s.sender.i == s.sender.n
    ensures s.popTokens == 0 && s.loopTokens == 0 && s.copies == s.count
    ensures Total(InBarrier, s.clients) == s.count && Total(InCopy, s.clients) == 0
    ensures forall c :: 0 <= c < |s.clients| && Registered(s.clients[c]) == 1 ==> InBarrier(s.clients[c]) == 1
  {
    TotalOrder(InBarrier, Registered, s.clients);
    forall c | 0 <= c < |s.clients| ensures InCopy(s.clients[c]) == 0 && Copied(s.clients[c]) == 0 {
      assert InBarrier(s.clients[c]) == Registered(s.clients[c]);
    }
    if Total(InCopy, s.clients) > 0 { var c := TotalPositive(InCopy, s.clients); }
    if Total(Copied, s.clients) > 0 { var c := TotalPositive(Copied, s.clients); }
  }

  lemma LoggedMove(s: State, c: nat, x: Client, s': State)
    requires Logged(s) && c < |s.clients| && LogInOrder(x.log, s.rounds)
    requires s'.rounds == s.rounds && s'.clients == s.clients[c := x]
    ensures Logged(s')
  {
  }

  lemma LoggedLater(s: State, s': State, m: Message)
    requires Logged(s) && s'.rounds == s.rounds + [m] && s'.clients == s.clients
    ensures Logged(s')
  {
    forall c | 0 <= c < |s'.clients| ensures LogInOrder(s'.clients[c].log, s'.rounds) {
      assert LogInOrder(s.clients[c].log, s.rounds);
    }
  }

  /** The client that a step moves, if any. */
  predicate MovesClient(step: Step) {
    step.Join? || step.Check? || step.WaitFor? || step.FrontCopy? || step.Post? || step.Write? || step.Pass? ||
      step.Leave?
  }

  lemma InvClientStep(s: State, step: Step)
    requires Inv(s) && Enabled(s, step) && MovesClient(step)
    ensures Inv(Next(s, step))
  {
    hide Logged, LogInOrder, Total;
    var s' := Next(s, step);
    var c := step.c;
    CountsMove(s.clients, c, s'.clients[c]);
    LogKept(s, step);
  }

  lemma LogKept(s: State, step: Step)
    requires Inv(s) && Enabled(s, step) && MovesClient(step)
    ensures Logged(Next(s, step)) && Next(s, step).rounds == s.rounds
    ensures |Next(s, step).clients| == |s.clients|
    ensures Next(s, step).clients == s.clients[step.c := Next(s, step).clients[step.c]]
  {
    var s', c := Next(s, step), step.c;
    assert LogInOrder(s.clients[c].log, s.rounds);
    if step.FrontCopy? {
      CountsMove(s.clients, c, s.clients[c]);
    }
    LoggedMove(s, c, s'.clients[c], s');
  }

  lemma InvSenderStep(s: State, step: Step)
    requires Inv(s) && Enabled(s, step) && !MovesClient(step)
    ensures Inv(Next(s, step))
  {
    var s' := Next(s, step);
    match step {
      case Arrive =>
        TotalAppend(Registered, s.clients, Client(Joining, []));
        TotalAppend(InBarrier, s.clients, Client(Joining, []));
        TotalAppend(InCopy, s.clients, Client(Joining, []));
        TotalAppend(Copied, s.clients, Client(Joining, []));
      case Push =>
        LoggedLater(s, s', s.sender.message);
        if Total(Copied, s.clients) > 0 {
          var c := TotalPositive(Copied, s.clients);
          TotalIncludes(InCopy, s.clients, c);
        }
      case Pop => BarrierAtPop(s);
      case _ =>
    }
  }

  /** Every step of every thread, in every interleaving, keeps the counts balanced. */
  lemma InvStep(s: State, step: Step)
    requires Inv(s) && Enabled(s, step)
    ensures Inv(Next(s, step))
  {
    if MovesClient(step) {
      InvClientStep(s, step);
    } else {
      InvSenderStep(s, step);
    }
  }

  lemma {:induction false} InvRun(s: State, steps: seq<Step>)
    requires Inv(s) && Run(s, steps)
    ensures Inv(After(s, steps))
    decreases |steps|
  {
    if steps != [] {
      InvStep(s, steps[0]);
      InvRun(Next(s, steps[0]), steps[1..]);
    }
  }

  /** Safety over every run of the handler. */
  lemma ReachableIsBalanced(steps: seq<Step>)
    requires Run(INITIAL, steps)
    ensures Inv(After(INITIAL, steps))
  {
    InvRun(INITIAL, steps);
  }
}

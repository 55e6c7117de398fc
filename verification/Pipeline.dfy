/** The thread between the tree's queue and the broadcast: what is sent, and in which order. */
module Pipeline {
  import opened Messages
  import opened Broadcast

  /** Where the stream thread stands in its loop. */
  datatype Thread = Testing | Taking | Holding(message: Message) | Sending(message: Message) | Done

  /** `pushed` is everything ever pushed to the stream queue; `kinds` tells, round by round, which rounds
      of the handler were the thread's own and not the one that stops the clients. */
  datatype Server = Server(
    handler: State,
    pushed: seq<Message>,
    inbox: seq<Message>,
    exiting: bool,
    thread: Thread,
    kinds: seq<bool>)

  const STARTED := Server(INITIAL, [], [], false, Testing, [])

  /** The destructor sets the exit flag and then pushes an empty message, to wake the thread. */
  datatype Action =
    | TreePush(message: Message)
    | RequestExit
    | PushEmpty
    | Test
    | Take
    | Handler(step: Step)

  /** The thread opens only rounds for the message it holds; a last round is opened by the shutdown, for an
      empty message. */
  predicate Allowed(v: Server, a: Action) {
    match a
    case TreePush(_) => true
    case RequestExit => true
    case PushEmpty => true
    case Test => v.thread.Testing?
    case Take => v.thread.Taking? && v.inbox != []
    case Handler(step) =>
      Enabled(v.handler, step) &&
      (step.Open? ==> if step.last then step.message == DEFAULT else v.thread == Holding(step.message))
  }

  function Enqueue(v: Server, m: Message): Server {
    v.(pushed := v.pushed + [m], inbox := v.inbox + [m])
  }

  function Do(v: Server, a: Action): Server
    requires Allowed(v, a)
  {
    match a
    case TreePush(m) => Enqueue(v, m)
    case RequestExit => v.(exiting := true)
    case PushEmpty => Enqueue(v, DEFAULT)
    case Test => v.(thread := if v.exiting then Done else Taking)
    case Take => v.(thread := Holding(v.inbox[0]), inbox := v.inbox[1..])
    case Handler(step) =>
      var w := v.(handler := Next(v.handler, step));
      if step.Open? && !step.last then w.(thread := Sending(step.message))
      else if step.Push? then w.(kinds := v.kinds + [v.thread.Sending?])
      else if step.Close? && v.thread.Sending? then w.(thread := Testing)
      else w
  }

  ghost predicate Runs(v: Server, actions: seq<Action>)
    decreases |actions|
  {
    actions == [] || (Allowed(v, actions[0]) && Runs(Do(v, actions[0]), actions[1..]))
  }

  ghost function Final(v: Server, actions: seq<Action>): Server
    requires Runs(v, actions)
    decreases |actions|
  {
    if actions == [] then v else Final(Do(v, actions[0]), actions[1..])
  }

  /** The messages of the thread's own rounds. */
  function Sent(rounds: seq<Message>, kinds: seq<bool>): seq<Message>
    requires |rounds| == |kinds|
  {
    if rounds == [] then []
    else
      var n := |rounds| - 1;
      Sent(rounds[..n], kinds[..n]) + if kinds[n] then [rounds[n]] else []
  }

  /** Taken from the inbox, and not yet pushed to the clients. */
  function InFlight(v: Server): seq<Message> {
    match v.thread
    case Holding(m) => [m]
    case Sending(m) => if v.handler.sender.Opened? then [m] else []
    case _ => []
  }

  ghost predicate InOrder(v: Server) {
    && |v.kinds| == |v.handler.rounds|
    && v.pushed == Sent(v.handler.rounds, v.kinds) + InFlight(v) + v.inbox
    && (v.thread.Sending? ==> !v.handler.sender.Idle?)
    && (v.handler.sender.Opened? ==>
          v.handler.sender.message == if v.thread.Sending? then v.thread.message else DEFAULT)
    && (forall r :: 0 <= r < |v.kinds| && !v.kinds[r] ==> v.handler.rounds[r] == DEFAULT)
  }

  lemma SentGrows(rounds: seq<Message>, kinds: seq<bool>, m: Message, own: bool)
    requires |rounds| == |kinds|
    ensures Sent(rounds + [m], kinds + [own]) == Sent(rounds, kinds) + if own then [m] else []
  {
    assert (rounds + [m])[..|rounds|] == rounds && (kinds + [own])[..|kinds|] == kinds;
  }

  /** What a handler step does to the record of rounds and to the opening of one. */
  lemma RoundRecord(s: State, step: Step)
    requires Enabled(s, step)
    ensures Next(s, step).rounds == if step.Push? then s.rounds + [s.sender.message] else s.rounds
    ensures step.Push? ==> s.sender.Opened?
    ensures Next(s, step).sender.Idle? <==> step.Close? || (s.sender.Idle? && !step.Open?)
    ensures Next(s, step).sender.Opened? <==> step.Open? || (s.sender.Opened? && !step.Push?)
    ensures step.Open? ==> s.sender.Idle? && Next(s, step).sender.message == step.message
    ensures s.sender.Opened? && Next(s, step).sender.Opened? ==> Next(s, step).sender.message == s.sender.message
    ensures step.Close? ==> !s.sender.Opened? && !s.sender.Idle?
  {
  }

  lemma InOrderHandler(v: Server, step: Step)
    requires InOrder(v) && Allowed(v, Handler(step))
    ensures InOrder(Do(v, Handler(step)))
  {
    hide Next, Enabled, Sent;
    RoundRecord(v.handler, step);
    if step.Push? {
      SentGrows(v.handler.rounds, v.kinds, v.handler.sender.message, v.thread.Sending?);
    }
  }

  lemma InOrderStep(v: Server, a: Action)
    requires InOrder(v) && Allowed(v, a)
    ensures InOrder(Do(v, a))
  {
    var sent := Sent(v.handler.rounds, v.kinds);
    match a {
      case TreePush(m) =>
        assert sent + InFlight(v) + (v.inbox + [m]) == (sent + InFlight(v) + v.inbox) + [m];
      case PushEmpty =>
        assert sent + InFlight(v) + (v.inbox + [DEFAULT]) == (sent + InFlight(v) + v.inbox) + [DEFAULT];
      case Take =>
        assert v.inbox == [v.inbox[0]] + v.inbox[1..];
      case Handler(step) => InOrderHandler(v, step);
      case _ =>
    }
  }

  lemma {:induction false} InOrderRun(v: Server, actions: seq<Action>)
    requires InOrder(v) && Inv(v.handler) && Runs(v, actions)
    ensures InOrder(Final(v, actions)) && Inv(Final(v, actions).handler)
    decreases |actions|
  {
    if actions != [] {
      InOrderStep(v, actions[0]);
      if actions[0].Handler? {
        InvStep(v.handler, actions[0].step);
      }
      InOrderRun(Do(v, actions[0]), actions[1..]);
    }
  }

  /** In every run of the server, the messages broadcast are a prefix of those pushed by the tree: none is
      lost, duplicated or overtaken on the way, whatever the clients and the shutdown do. */
  lemma BroadcastIsPrefixOfPushed(actions: seq<Action>)
    requires Runs(STARTED, actions)
    ensures var v := Final(STARTED, actions);
      && |v.kinds| == |v.handler.rounds| && Sent(v.handler.rounds, v.kinds) <= v.pushed
      && v.pushed == Contents(Entries(actions))
  {
    InOrderRun(STARTED, actions);
    PushedAreEntries(STARTED, actions);
    var v := Final(STARTED, actions);
    var sent := Sent(v.handler.rounds, v.kinds);
    assert sent + InFlight(v) + v.inbox == sent + (InFlight(v) + v.inbox);
  }

  // ------------------------------------------------------------------ what clients see

  /** The number of the thread's own rounds among the first `r`. */
  function OwnRounds(kinds: seq<bool>, r: nat): nat
    requires r <= |kinds|
  {
    if r == 0 then 0 else OwnRounds(kinds, r - 1) + if kinds[r - 1] then 1 else 0
  }

  lemma {:induction false} OwnRoundsGrow(kinds: seq<bool>, q: nat, r: nat)
    requires q <= r <= |kinds|
    ensures OwnRounds(kinds, q) <= OwnRounds(kinds, r)
    decreases r
  {
    if q < r {
      OwnRoundsGrow(kinds, q, r - 1);
    }
  }

  lemma {:induction false} OwnRoundsOfPrefix(kinds: seq<bool>, n: nat, r: nat)
    requires r <= n <= |kinds|
    ensures OwnRounds(kinds[..n], r) == OwnRounds(kinds, r)
  {
    if r > 0 {
      OwnRoundsOfPrefix(kinds, n, r - 1);
    }
  }

  lemma {:induction false} SentAt(rounds: seq<Message>, kinds: seq<bool>, r: nat)
    requires |rounds| == |kinds| && r < |kinds|
    ensures |Sent(rounds, kinds)| == OwnRounds(kinds, |kinds|)
    ensures kinds[r] ==>
      OwnRounds(kinds, r) < |Sent(rounds, kinds)| && Sent(rounds, kinds)[OwnRounds(kinds, r)] == rounds[r]
    decreases |rounds|
  {
    var n := |rounds| - 1;
    OwnRoundsOfPrefix(kinds, n, n);
    if n > 0 {
      SentAt(rounds[..n], kinds[..n], if r < n then r else 0);
      OwnRoundsOfPrefix(kinds, n, if r < n then r else 0);
    }
  }

  /** Where in the tree's queue the message of a round was pushed. */
  function PushOf(v: Server, round: nat): nat
    requires round <= |v.kinds|
  {
    OwnRounds(v.kinds, round)
  }

  /** A client's copies are empty stop messages or messages pushed to the tree's queue, met in the order in
      which they were pushed. */
  lemma ClientsFollowThePushes(actions: seq<Action>, c: nat, j: nat, k: nat)
    requires Runs(STARTED, actions)
    requires c < |Final(STARTED, actions).handler.clients|
    requires j <= k < |Final(STARTED, actions).handler.clients[c].log|
    ensures var v := Final(STARTED, actions);
      var log := v.handler.clients[c].log;
      && log[j].round <= log[k].round < |v.kinds|
      && PushOf(v, log[j].round) <= PushOf(v, log[k].round)
      && (if v.kinds[log[k].round]
          then PushOf(v, log[k].round) < |v.pushed| && v.pushed[PushOf(v, log[k].round)] == log[k].message
          else log[k].message == DEFAULT)
  {
    InOrderRun(STARTED, actions);
    BroadcastIsPrefixOfPushed(actions);
    var v := Final(STARTED, actions);
    assert LogInOrder(v.handler.clients[c].log, v.handler.rounds);
    var log := v.handler.clients[c].log;
    hide InOrder, Inv, Runs, Final;
    OwnRoundsGrow(v.kinds, log[j].round, log[k].round);
    SentAt(v.handler.rounds, v.kinds, log[k].round);
  }

  // ------------------------------------------------------------------ what was pushed

  /** An entry of the stream queue: a message of the tree, or the empty one of the destructor. */
  datatype Entry = FromTree(message: Message) | Empty

  function Content(e: Entry): Message {
    if e.FromTree? then e.message else DEFAULT
  }

  /** The entries that a run pushes, read off its actions. */
  function Entries(actions: seq<Action>): seq<Entry> {
    if actions == [] then []
    else
      var rest := Entries(actions[1..]);
      match actions[0]
      case TreePush(m) => [FromTree(m)] + rest
      case PushEmpty => [Empty] + rest
      case _ => rest
  }

  /** The messages among some entries that came from the tree. */
  function TreeMessages(entries: seq<Entry>): seq<Message> {
    if entries == [] then []
    else TreeMessages(entries[..|entries| - 1]) +
         var last := entries[|entries| - 1]; if last.FromTree? then [last.message] else []
  }

  function Contents(entries: seq<Entry>): (ms: seq<Message>)
    ensures |ms| == |entries| && forall i :: 0 <= i < |ms| ==> ms[i] == Content(entries[i])
  {
    seq(|entries|, i requires 0 <= i < |entries| => Content(entries[i]))
  }

  lemma EntriesStep(v: Server, a: Action, later: seq<Action>)
    requires Allowed(v, a)
    ensures Do(v, a).pushed + Contents(Entries(later)) == v.pushed + Contents(Entries([a] + later))
  {
    assert ([a] + later)[1..] == later;
    var rest := Contents(Entries(later));
    match a {
      case TreePush(m) => assert Contents([FromTree(m)] + Entries(later)) == [m] + rest;
      case PushEmpty => assert Contents([Empty] + Entries(later)) == [DEFAULT] + rest;
      case _ =>
    }
  }

  /** The stream queue is given exactly the messages of the run's pushes, in their order. */
  lemma {:induction false} PushedAreEntries(v: Server, actions: seq<Action>)
    requires Runs(v, actions)
    ensures Final(v, actions).pushed == v.pushed + Contents(Entries(actions))
    decreases |actions|
  {
    hide Do, Allowed;
    if actions != [] {
      PushedAreEntries(Do(v, actions[0]), actions[1..]);
      EntriesStep(v, actions[0], actions[1..]);
      assert [actions[0]] + actions[1..] == actions;
    }
  }

  lemma {:induction false} TreeMessageAt(entries: seq<Entry>, p: nat)
    requires p < |entries| && entries[p].FromTree?
    ensures |TreeMessages(entries[..p])| < |TreeMessages(entries)|
    ensures TreeMessages(entries)[|TreeMessages(entries[..p])|] == entries[p].message
    decreases |entries|
  {
    var n := |entries| - 1;
    if p < n {
      TreeMessageAt(entries[..n], p);
      assert entries[..n][..p] == entries[..p];
    }
  }

  /** Where among all pushes of the tree a round's message is; stop rounds and empty entries have no place. */
  ghost predicate FromTreeAt(v: Server, entries: seq<Entry>, round: nat, place: nat)
    requires round < |v.kinds|
  {
    && v.kinds[round] && PushOf(v, round) < |entries| && entries[PushOf(v, round)].FromTree?
    && place == |TreeMessages(entries[..PushOf(v, round)])|
  }

  /** Every copy a client takes is the empty message of a stop round, the empty message of the destructor,
      or the message of the tree at the place of its round. */
  lemma CopiesComeFromPushes(actions: seq<Action>, c: nat, k: nat)
    requires Runs(STARTED, actions)
    requires c < |Final(STARTED, actions).handler.clients|
    requires k < |Final(STARTED, actions).handler.clients[c].log|
    ensures var v, entries := Final(STARTED, actions), Entries(actions);
      var copy, places := v.handler.clients[c].log[k], TreeMessages(entries);
      && copy.round < |v.kinds|
      && if !v.kinds[copy.round] then copy.message == DEFAULT
         else
           var p := PushOf(v, copy.round);
           && p < |entries|
           && if entries[p].Empty? then copy.message == DEFAULT
              else
                var place := |TreeMessages(entries[..p])|;
                FromTreeAt(v, entries, copy.round, place) && place < |places| && places[place] == copy.message
  {
    ClientsFollowThePushes(actions, c, k, k);
    BroadcastIsPrefixOfPushed(actions);
    hide Runs, Final;
    var v, entries := Final(STARTED, actions), Entries(actions);
    var round := v.handler.clients[c].log[k].round;
    if v.kinds[round] {
      var p := PushOf(v, round);
      assert v.pushed == Contents(entries);
      if entries[p].FromTree? {
        TreeMessageAt(entries, p);
      }
    }
  }

  // ------------------------------------------------------------------ the thread goes on

  /** Steps of the stream thread itself, outside the round it sends. */
  predicate ThreadStep(a: Action) {
    a.Test? || a.Take? || (a.Handler? && a.step.Open? && !a.step.last)
  }

  /** The thread rests only when it has been told to exit, when everything pushed has been broadcast, or
      while a round is in progress. */
  lemma RestsOnlyWhenDone(actions: seq<Action>)
    requires Runs(STARTED, actions)
    requires forall a :: ThreadStep(a) ==> !Allowed(Final(STARTED, actions), a)
    ensures var v := Final(STARTED, actions);
      || v.thread.Done?
      || !v.handler.sender.Idle?
      || (|v.kinds| == |v.handler.rounds| && Sent(v.handler.rounds, v.kinds) == v.pushed)
  {
    InOrderRun(STARTED, actions);
    var v := Final(STARTED, actions);
    hide Runs, Final;
    assert !Allowed(v, Test) && !Allowed(v, Take);
    match v.thread {
      case Holding(m) => assert !Allowed(v, Handler(Open(m, false)));
      case Taking =>
        var sent := Sent(v.handler.rounds, v.kinds);
        assert sent + [] + [] == sent;
      case _ =>
    }
  }

  /** The thread ends only if it has been told to, ... */
  lemma {:induction false} EndsOnlyOnRequest(v: Server, actions: seq<Action>)
    requires Runs(v, actions) && !v.exiting && !v.thread.Done?
    requires RequestExit !in actions
    ensures !Final(v, actions).exiting && !Final(v, actions).thread.Done?
    decreases |actions|
  {
    if actions != [] {
      EndsOnlyOnRequest(Do(v, actions[0]), actions[1..]);
    }
  }

  /** Messages the thread may still take once it has been told to exit. */
  function MayTake(thread: Thread): nat {
    if thread.Taking? then 1 else 0
  }

  function Takes(actions: seq<Action>): nat {
    if actions == [] then 0 else (if actions[0].Take? then 1 else 0) + Takes(actions[1..])
  }

  lemma {:induction false} ExitStaysSet(v: Server, actions: seq<Action>)
    requires Runs(v, actions) && v.exiting
    ensures Final(v, actions).exiting
    ensures Takes(actions) + MayTake(Final(v, actions).thread) <= MayTake(v.thread)
    ensures Test in actions || v.thread.Done? ==> Final(v, actions).thread.Done?
    decreases |actions|
  {
    if actions != [] {
      ExitStaysSet(Do(v, actions[0]), actions[1..]);
    }
  }

  /** ... and once told, it takes no message but the one it may already be waiting for, and its next test
      of the flag ends it. */
  lemma ExitIsHeeded(v: Server, actions: seq<Action>)
    requires Runs(Do(v, RequestExit), actions)
    ensures Takes(actions) <= MayTake(v.thread)
    ensures Test in actions ==> Final(Do(v, RequestExit), actions).thread.Done?
  {
    ExitStaysSet(Do(v, RequestExit), actions);
  }
}

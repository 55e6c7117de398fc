/** The server's use of the tree: start-up, and the dispatch of client actions. */
module Servers {
  import opened Messages
  import opened Graphs
  import opened Schemas
  import opened Evaluation
  import opened Propagation
  import opened Building
  import opened Extending
  import opened BlockingQueues
  import opened ServerTrees
  import opened StateProto
  import opened StateTexts

  /** One set field of a request: the key and the content of its message. */
  datatype Action = Action(key: NodeKey, message: Message)

  /** The latest source messages once a list of actions has been applied; unknown keys are skipped. */
  function Applied(sources: set<NodeKey>, latest: map<NodeKey, Message>, actions: seq<Action>): map<NodeKey, Message> {
    if actions == [] then latest
    else
      var before := Applied(sources, latest, actions[..|actions| - 1]);
      var last := actions[|actions| - 1];
      if last.key in sources then before[last.key := last.message] else before
  }

  /** What one action pushes to the queue of sink `k`: a snapshot of each phase, if `k` is below its source. */
  ghost function PushedBy(g: Graph, cs: map<NodeKey, Computer>, sources: set<NodeKey>, latest: map<NodeKey, Message>,
                          action: Action, k: NodeKey): seq<Message>
    requires Dag(g)
  {
    if action.key !in sources then []
    else
      var settled := Propagation.Settled(cs, latest[action.key := action.message]);
      Snapshot(g, cs, Between(g, cs, latest, action.key, action.message), action.key, k) +
      Snapshot(g, cs, settled, action.key, k)
  }

  /** ... and what a list of actions does. */
  ghost function Pushes(g: Graph, cs: map<NodeKey, Computer>, sources: set<NodeKey>, latest: map<NodeKey, Message>,
                        actions: seq<Action>, k: NodeKey): seq<Message>
    requires Dag(g)
  {
    if actions == [] then []
    else
      var n := |actions| - 1;
      Pushes(g, cs, sources, latest, actions[..n], k) +
      PushedBy(g, cs, sources, Applied(sources, latest, actions[..n]), actions[n], k)
  }

  /** The server meets every hypothesis of the tree: its type graph is acyclic and its compute functions
      are well behaved. */
  lemma StateIsComputable(g: Graph, sinks: set<NodeKey>)
    requires Finished(StateSchema(), g, sinks)
    ensures ComputableTables(StateSchema(), g, ComputersUpTo(|COMPUTED|))
  {
    StateGraphIsAcyclic(g, sinks);
    RegisteredFunctionsAreWellBehaved(g, sinks);
    var cs := ComputersUpTo(|COMPUTED|);
    hide Finished, StateSchema, AllWellBehaved, Acyclic, ComputerFor;
    forall t, f | t in cs && f in cs[t].writes ensures t in StateSchema() && f < |StateSchema()[t].fields| {
      WritesFitState(t, f);
    }
  }

  /** Registers the compute function of every type but the sources. */
  method RegisterComputeFunctions(tree: ServerTree)
    requires tree.Built() && tree.schema == StateSchema() && tree.computers == map[]
    modifies tree`computers
    ensures tree.Built() && (old(tree.Blank()) ==> tree.Blank())
    ensures tree.computers == ComputersUpTo(|COMPUTED|)
  {
    hide BuiltTables, OwnQueues, AllBlank, StateSchema, ComputersUpTo, ComputerFor;
    NoComputers();
    for i := 0 to |COMPUTED|
      invariant tree.Built() && (old(tree.Blank()) ==> tree.Blank()) && tree.computers == ComputersUpTo(i)
    {
      OneMoreComputer(i);
      tree.RegisterFunction(COMPUTED[i], ComputerFor(COMPUTED[i]));
    }
  }

  /** Builds the tree of the server: one output, then the compute functions. The texts that its nodes will
      hold, for whatever messages the sources are given, are spelled out. */
  method Start(queue: BlockingQueue<Message>) returns (tree: ServerTree)
    ensures fresh(tree) && tree.schema == StateSchema()
    ensures tree.Built() && tree.Computable() && tree.Current() && tree.Blank()
    ensures tree.sinks == map[SINK2 := SinkData(DEFAULT, queue)]
    ensures tree.sources == {SOURCE1, SOURCE2, SOURCE3} && tree.graph.nodes - tree.sources == tree.computers.Keys
    ensures Dag(tree.graph) && forall latest :: SaysTexts(tree.graph, tree.computers, latest)
  {
    hide BuiltTables, AllBlank, StateSchema, ComputableTables, OneofReached, ComputersUpTo, SaysTexts, UpToDate, Dag;
    StateSchemaIsClosed();
    tree := new ServerTree(StateSchema());
    Sink2IsNode();
    NoOneofInState(SINK2);
    var outcome := tree.AddOutput(SINK2, queue);
    RegisterComputeFunctions(tree);
    assert tree.sinks.Keys == {SINK2};
    StartedTables(tree.nodes, tree.graph, tree.held, tree.sources);
  }

  /** What the tables are once the only sink is built and the functions are registered. */
  lemma StartedTables(nodes: Table, g: Graph, h: Nodes, sources: set<NodeKey>)
    requires BuiltTables(StateSchema(), nodes, g, h, sources, {SINK2}) && AllBlank(h)
    ensures var cs := ComputersUpTo(|COMPUTED|);
      && ComputableTables(StateSchema(), g, cs) && Dag(g) && UpToDate(g, cs, map[], h)
      && sources == {SOURCE1, SOURCE2, SOURCE3} && g.nodes - sources == cs.Keys
      && forall latest :: SaysTexts(g, cs, latest)
  {
    hide BuiltTables, Finished, HoldsEval, StateSchema, ComputableTables, ComputersUpTo, Propagation.Settled, SaysTexts,
         IsSource, WellFormed, Acyclic;
    var cs := ComputersUpTo(|COMPUTED|);
    BuiltIsFinished(StateSchema(), nodes, g, h, sources, {SINK2});
    StateIsComputable(g, {SINK2});
    BuiltIsReady(StateSchema(), nodes, g, h, sources, {SINK2}, cs);
    BlankIsCurrent(g, cs, h);
    BuiltHasSources(StateSchema(), nodes, g, h, sources, {SINK2});
    StateIsComputed(g, sources);
  }

  lemma BuiltHasSources(schema: Schema, nodes: Table, g: Graph, h: Nodes, sources: set<NodeKey>, sinks: set<NodeKey>)
    requires BuiltTables(schema, nodes, g, h, sources, sinks)
    ensures forall t :: t in sources <==> t in g.nodes && IsSource(g, t)
  {
  }

  lemma Sink2IsNode()
    ensures SINK2 in StateSchema() && StateSchema()[SINK2].isNode
  {
  }

  lemma NoComputers()
    ensures ComputersUpTo(0) == map[]
  {
  }

  lemma OneMoreComputer(i: nat)
    requires i < |COMPUTED|
    ensures ComputersUpTo(i + 1) == ComputersUpTo(i)[COMPUTED[i] := ComputerFor(COMPUTED[i])]
    ensures COMPUTED[i] in StateSchema() && StateSchema()[COMPUTED[i]].isNode
  {
    assert COMPUTED[..i + 1] == COMPUTED[..i] + [COMPUTED[i]];
    StateSchemaIsClosed();
    WritesFitState(COMPUTED[i], 0);
  }

  lemma OneMoreAction(g: Graph, cs: map<NodeKey, Computer>, sources: set<NodeKey>, latest: map<NodeKey, Message>,
                      actions: seq<Action>, i: nat, k: NodeKey)
    requires Dag(g) && i < |actions|
    ensures var before := Applied(sources, latest, actions[..i]);
      && Applied(sources, latest, actions[..i + 1])
         == (if actions[i].key in sources then before[actions[i].key := actions[i].message] else before)
      && Pushes(g, cs, sources, latest, actions[..i + 1], k)
         == Pushes(g, cs, sources, latest, actions[..i], k) + PushedBy(g, cs, sources, before, actions[i], k)
  {
    assert actions[..i + 1][..i] == actions[..i];
  }

  /** One request after another acts as their actions in one list. */
  lemma {:induction false} RequestsCompose(g: Graph, cs: map<NodeKey, Computer>, sources: set<NodeKey>,
                                           latest: map<NodeKey, Message>, first: seq<Action>, second: seq<Action>,
                                           k: NodeKey)
    requires Dag(g)
    ensures var between := Applied(sources, latest, first);
      && Applied(sources, latest, first + second) == Applied(sources, between, second)
      && Pushes(g, cs, sources, latest, first + second, k)
         == Pushes(g, cs, sources, latest, first, k) + Pushes(g, cs, sources, between, second, k)
    decreases |second|
  {
    hide WellFormed, Acyclic, PushedBy;
    if second == [] {
      assert first + second == first;
    } else {
      var n := |second| - 1;
      RequestsCompose(g, cs, sources, latest, first, second[..n], k);
      assert (first + second)[..|first| + n] == first + second[..n];
    }
  }

  /** What the queues of the tree's sinks hold. */
  ghost function Contents(tree: ServerTree): map<NodeKey, seq<Message>>
    reads tree, tree.Queues()
  {
    map k | k in tree.sinks :: tree.sinks[k].queue.queue
  }

  ghost function WithPushedBy(contents: map<NodeKey, seq<Message>>, g: Graph, cs: map<NodeKey, Computer>,
                              sources: set<NodeKey>, latest: map<NodeKey, Message>, action: Action)
    : map<NodeKey, seq<Message>>
    requires Dag(g)
  {
    map k | k in contents :: contents[k] + PushedBy(g, cs, sources, latest, action, k)
  }

  ghost function WithPushes(contents: map<NodeKey, seq<Message>>, g: Graph, cs: map<NodeKey, Computer>,
                            sources: set<NodeKey>, latest: map<NodeKey, Message>, actions: seq<Action>)
    : map<NodeKey, seq<Message>>
    requires Dag(g)
  {
    map k | k in contents :: contents[k] + Pushes(g, cs, sources, latest, actions, k)
  }

  lemma NoActions(contents: map<NodeKey, seq<Message>>, g: Graph, cs: map<NodeKey, Computer>,
                  sources: set<NodeKey>, latest: map<NodeKey, Message>)
    requires Dag(g)
    ensures Applied(sources, latest, []) == latest
    ensures WithPushes(contents, g, cs, sources, latest, []) == contents
  {
    assert forall k :: k in contents ==> contents[k] + Pushes(g, cs, sources, latest, [], k) == contents[k];
  }

  lemma OneMoreRequestField(contents: map<NodeKey, seq<Message>>, g: Graph, cs: map<NodeKey, Computer>,
                            sources: set<NodeKey>, latest: map<NodeKey, Message>, actions: seq<Action>, i: nat)
    requires Dag(g) && i < |actions|
    ensures var before := Applied(sources, latest, actions[..i]);
      && Applied(sources, latest, actions[..i + 1])
         == (if actions[i].key in sources then before[actions[i].key := actions[i].message] else before)
      && WithPushes(contents, g, cs, sources, latest, actions[..i + 1])
         == WithPushedBy(WithPushes(contents, g, cs, sources, latest, actions[..i]), g, cs, sources, before, actions[i])
  {
    hide WellFormed, Acyclic, PushedBy, Pushes, Applied;
    OneMoreAction(g, cs, sources, latest, actions, i, actions[i].key);
    var before := Applied(sources, latest, actions[..i]);
    var pushes := WithPushes(contents, g, cs, sources, latest, actions[..i]);
    forall k | k in contents
      ensures contents[k] + Pushes(g, cs, sources, latest, actions[..i + 1], k)
           == pushes[k] + PushedBy(g, cs, sources, before, actions[i], k)
    {
      OneMoreAction(g, cs, sources, latest, actions, i, k);
    }
  }

  lemma CurrentIsDag(tree: ServerTree)
    requires tree.Current()
    ensures Dag(tree.graph)
  {
  }

  /** Gives one set field to the tree. */
  method DispatchField(tree: ServerTree, action: Action)
    requires tree.Built() && tree.Computable() && tree.Current()
    modifies tree, tree.Queues()
    ensures tree.Built() && tree.Computable() && tree.Current()
    ensures tree.sources == old(tree.sources) && tree.graph == old(tree.graph) && tree.computers == old(tree.computers)
    ensures tree.latest
         == if action.key in tree.sources then old(tree.latest)[action.key := action.message] else old(tree.latest)
    ensures SameQueues(old(tree.sinks), tree.sinks) && tree.Queues() == old(tree.Queues())
    ensures Dag(tree.graph)
    ensures Contents(tree)
         == WithPushedBy(old(Contents(tree)), tree.graph, tree.computers, tree.sources, old(tree.latest), action)
  {
    hide BuiltTables, OwnQueues, HoldsEval, Settled, ComputableTables, Snapshot, Between, Acyclic, WellFormed,
         Refreshed;
    ghost var s := tree.sinks;
    var found := tree.UpdateSource(action.key, action.message);
    SameQueueSets(s, tree.sinks);
    ghost var g, cs, sources, latest := tree.graph, tree.computers, tree.sources, old(tree.latest);
    forall k | k in tree.sinks
      ensures tree.sinks[k].queue.queue
           == old(tree.sinks[k].queue.queue) + PushedBy(g, cs, sources, latest, action, k)
    {
      assert tree.sinks[k].queue == s[k].queue;
    }
  }

  /** Gives every set field of a request to the tree, in field order. */
  method DispatchAction(tree: ServerTree, request: seq<Action>) returns (errorMsg: string)
    requires tree.Built() && tree.Computable() && tree.Current()
    modifies tree, tree.Queues()
    ensures tree.Built() && tree.Computable() && tree.Current()
    ensures tree.sources == old(tree.sources) && tree.graph == old(tree.graph) && tree.computers == old(tree.computers)
    ensures tree.latest == Applied(tree.sources, old(tree.latest), request)
    ensures SameQueues(old(tree.sinks), tree.sinks)
    ensures Dag(tree.graph)
    ensures Contents(tree)
         == WithPushes(old(Contents(tree)), tree.graph, tree.computers, tree.sources, old(tree.latest), request)
    ensures errorMsg == if request == [] then "No action specified" else ""
  {
    hide ServerTree.Built, ServerTree.Computable, ServerTree.Current, WithPushes, WithPushedBy, Dag, Applied, Contents;
    CurrentIsDag(tree);
    ghost var g, cs, sources, latest0 := tree.graph, tree.computers, tree.sources, tree.latest;
    ghost var contents := Contents(tree);
    NoActions(contents, g, cs, sources, latest0);
    var received := false;
    for i := 0 to |request|
      invariant tree.Built() && tree.Computable() && tree.Current()
      invariant tree.sources == sources && tree.graph == g && tree.computers == cs
      invariant tree.Queues() == old(tree.Queues()) && SameQueues(old(tree.sinks), tree.sinks)
      invariant tree.latest == Applied(sources, latest0, request[..i])
      invariant Contents(tree) == WithPushes(contents, g, cs, sources, latest0, request[..i])
      invariant received == (i > 0)
    {
      received := true;
      OneMoreRequestField(contents, g, cs, sources, latest0, request, i);
      DispatchField(tree, request[i]);
    }
    assert request[..|request|] == request;
    errorMsg := if received then "" else "No action specified";
  }
}

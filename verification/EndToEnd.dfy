/** From the actions that clients dispatch to the messages that clients are streamed. */
module EndToEnd {
  import opened Messages
  import opened Graphs
  import opened Evaluation
  import opened Propagation
  import opened Broadcast
  import Servers
  import Pipeline

  /** `m` is what the from-scratch evaluation gives for `sink` in the `i`-th action: in the middle of it if
      `place` is the first one among the pushes that the action adds, and after it if `place` is the second. */
  ghost predicate EvaluatedAt(g: Graph, cs: map<NodeKey, Computer>, sources: set<NodeKey>, actions: seq<Servers.Action>,
                              i: nat, sink: NodeKey, place: nat, m: Message)
    requires Dag(g) && i < |actions|
  {
    var before := Servers.Applied(sources, map[], actions[..i]);
    var after := Servers.Applied(sources, map[], actions[..i + 1]);
    var first := |Servers.Pushes(g, cs, sources, map[], actions[..i], sink)|;
    && actions[i].key in sources && sink in Leaves(g, Cone(g, actions[i].key))
    && (|| (place == first
            && m == EvalMsg(g, cs, Between(g, cs, before, actions[i].key, actions[i].message), sink))
        || (place == first + 1 && m == EvalMsg(g, cs, Propagation.Settled(cs, after), sink)))
  }

  lemma ActionIsEvaluated(g: Graph, cs: map<NodeKey, Computer>, sources: set<NodeKey>, actions: seq<Servers.Action>,
                          i: nat, sink: NodeKey, offset: nat)
    requires Dag(g) && i < |actions|
    requires var before := Servers.Applied(sources, map[], actions[..i]);
      offset < |Servers.PushedBy(g, cs, sources, before, actions[i], sink)|
    ensures var before := Servers.Applied(sources, map[], actions[..i]);
      var first := |Servers.Pushes(g, cs, sources, map[], actions[..i], sink)|;
      var pushed := Servers.PushedBy(g, cs, sources, before, actions[i], sink);
      EvaluatedAt(g, cs, sources, actions, i, sink, first + offset, pushed[offset])
  {
    hide WellFormed, Acyclic, Leaves, Cone, Between, Propagation.Settled, EvalMsg, Servers.Pushes;
    Servers.OneMoreAction(g, cs, sources, map[], actions, i, sink);
  }

  /** Every place among the pushes of a list of actions belongs to one of the actions. */
  lemma {:induction false} PushesAreEvaluated(g: Graph, cs: map<NodeKey, Computer>, sources: set<NodeKey>,
                                              actions: seq<Servers.Action>, n: nat, sink: NodeKey, place: nat)
    returns (i: nat)
    requires Dag(g) && n <= |actions| && place < |Servers.Pushes(g, cs, sources, map[], actions[..n], sink)|
    ensures i < n
    ensures EvaluatedAt(g, cs, sources, actions, i, sink, place,
                        Servers.Pushes(g, cs, sources, map[], actions[..n], sink)[place])
  {
    hide WellFormed, Acyclic, EvaluatedAt, Servers.PushedBy, Servers.Applied;
    Servers.OneMoreAction(g, cs, sources, map[], actions, n - 1, sink);
    var first := |Servers.Pushes(g, cs, sources, map[], actions[..n - 1], sink)|;
    if place < first {
      i := PushesAreEvaluated(g, cs, sources, actions, n - 1, sink, place);
    } else {
      i := n - 1;
      ActionIsEvaluated(g, cs, sources, actions, i, sink, place - first);
    }
  }

  /** Every message that a client copies is the empty one of a stop round or of the destructor, or it is
      the from-scratch message of the sink for some prefix of the dispatched actions, in the middle of its
      last action or after it; and it is that at its own place in the order of pushes. What the tree has
      pushed so far is any prefix of what the actions push. */
  lemma ClientsAreSentEvaluations(g: Graph, cs: map<NodeKey, Computer>, sources: set<NodeKey>,
                                  dispatched: seq<Servers.Action>, sink: NodeKey,
                                  run: seq<Pipeline.Action>, c: nat, k: nat)
    returns (place: nat, i: nat)
    requires Dag(g) && Pipeline.Runs(Pipeline.STARTED, run)
    requires Pipeline.TreeMessages(Pipeline.Entries(run)) <= Servers.Pushes(g, cs, sources, map[], dispatched, sink)
    requires c < |Pipeline.Final(Pipeline.STARTED, run).handler.clients|
    requires k < |Pipeline.Final(Pipeline.STARTED, run).handler.clients[c].log|
    ensures var v, entries := Pipeline.Final(Pipeline.STARTED, run), Pipeline.Entries(run);
      var copy := v.handler.clients[c].log[k];
      && copy.round < |v.kinds|
      && if !v.kinds[copy.round] then copy.message == DEFAULT
         else
           var p := Pipeline.PushOf(v, copy.round);
           && p < |entries|
           && if entries[p].Empty? then copy.message == DEFAULT
              else
                && Pipeline.FromTreeAt(v, entries, copy.round, place)
                && i < |dispatched| && EvaluatedAt(g, cs, sources, dispatched, i, sink, place, copy.message)
  {
    hide EvaluatedAt, Pipeline.Runs, Pipeline.Final, Pipeline.Entries, Pipeline.TreeMessages, Pipeline.PushOf,
         WellFormed, Acyclic, Servers.Pushes;
    var v, entries := Pipeline.Final(Pipeline.STARTED, run), Pipeline.Entries(run);
    var round := v.handler.clients[c].log[k].round;
    place, i := 0, 0;
    Pipeline.CopiesComeFromPushes(run, c, k);
    if v.kinds[round] && entries[Pipeline.PushOf(v, round)].FromTree? {
      place := |Pipeline.TreeMessages(entries[..Pipeline.PushOf(v, round)])|;
      assert dispatched[..|dispatched|] == dispatched;
      i := PushesAreEvaluated(g, cs, sources, dispatched, |dispatched|, sink, place);
    }
  }
}

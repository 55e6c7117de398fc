# auto-proto: verified model

A Dafny 4.11 model of three parts of auto-proto, with proofs. `dafny verify dfyconfig.toml` checks it all.

## The reactive tree (`src/server/server_tree.*`)

Every protobuf message type with the node option is a node of a dataflow graph. Each node owns a full
message, so an input is a nested copy of the parent's message, and a type that is reachable along several
paths is copied into many places. `update_source` stores a message at a source and then walks the graph
twice, path by path, revisiting nodes: once to invalidate, once to recompute. Sinks are sent a snapshot after
each walk.

* `Messages`, `Schemas`, `BlockingQueues`: messages as trees with presence, descriptors, the stream queue.
* `Reachability`, `Graphs`: paths, the edge tables as flat maps, the cone a walk reaches.
* `Evaluation`: what every node should hold, computed from scratch from what the sources hold (`EvalMsg`,
  `EvalValid`). It knows nothing of order or history. A `Basis` also lists nodes that are switched off, so the
  state between the two walks is a from-scratch state too.
* `Propagation`: what one walk does, as a relation between the node tables before and after it. Walks over
  overlapping cones compose, which is why revisiting is harmless; the two `...Yields` lemmas turn the relation
  into the from-scratch state.
* `Building`, `ServerTrees`: the class with its tables; `build_node`, `add_output`, both walks, `update_source`.
* `Extending`: adding an output to a tree that already runs, and a late output that lags.
* `Agreement`: where copies and presence tell the truth, and the recursive validity reading of
  `util::graphvis_string`.
* `StateProto`, `Servers`: the server's own message types and compute functions, shown to meet every hypothesis;
  start-up and `dispatch_action`.
* `StateTexts`: what those functions compute, spelled out: the text of each of the eleven types from the texts of
  the three sources.

The theorem is the contract of `UpdateSource`: whatever order the `unordered_map`s are walked in at every visit,
each call ends in the from-scratch state of the latest source messages, each queue gets exactly the two
from-scratch snapshots it should, and each sink below the source is left holding the second. Its hypotheses are
`Computable`: the type graph has no cycle (the code would recurse for ever), and compute functions of non-source
types set non-input fields to values that depend on input fields only. A function on a source is unrestricted.
`Servers.Start` shows that the server meets them. Every compute call sees all its inputs flagged valid, but during
a walk an input copy can still be stale; only the end of each phase is consistent, and only then is anything sent.

Four intended properties are false of the code in general. Each is proved with the exact condition under
which it holds, and with an input at which it fails:

* Copies agree. A message with two singular fields of one node type: `outputs` keeps one field per type, so the
  second field stays unset for ever (`CopyAgreesIffLinked`, `CopyReadsRightIff`, `TwinStaysUnset`), and a receiver
  that reads validity from presence disagrees with the server (`PresenceAgreesIffLinked`).
* A tree stays current when an output is added after updates have begun (the contract of `AddOutput`,
  `LateOutputIsCurrentIff`, `LateOutputLags`).
* A broadcast round closes (`AlwaysClosesIffAllWait`, `CanCloseIsNoPromise`; below).
* A round serves every client once (`OnceIffNobodyParked`, `SlowClientIsOvertaken`; below).

## The broadcast (`src/server/stream_handler.h`, `src/server/server.cpp`)

* `Counting`: sums of a weight over the clients.
* `Broadcast`: one sender and any number of clients as an interleaving of atomic steps; one step is one
  semaphore, queue, lock or flag operation of one thread. The invariant balances anonymous tokens against
  client positions.
* `Rounds`: front stability, bounded rounds, and which rounds close. A counted client that has left the loop
  waits for the lock the sender holds while the sender waits for its post, so such a round stays open for
  ever (`DepartedHoldsRoundOpen`, reached by `CancelledClientIsOvertaken`). A round is bound to close, in every
  interleaving, if and only if every counted client is inside `wait_for` when its message is pushed: one that has
  yet to test the loop condition may find its context cancelled there. `ClosesIffCanClose` is the weaker question
  whether an open round can still be saved by some interleaving.
* `Delivery`: copies per client and per round. A fast client can take the loop token left for a slow one and copy
  the same message again; for a round that can close, exactly-once holds if and only if nobody was parked when
  the round was pushed, or there is at most one client. A round that is bound to close serves everyone once. Also
  the drain after the last round.
* `Departures`: a client leaves only because of the shutdown flag, its own cancelled context or its own failed
  write; idle time-outs do not count. After the latter two it gets no further copy, after the flag at most one.
* `Shutdown`: a last round always sets the flag, nothing else does, and from there every client leaves and nothing
  is left behind. It is bound to get to its pop if and only if every counted client is waiting when it begins.
* `Overtaking`: the run in which one client is served twice and the other not at all.
* `Pipeline`: the stream thread; what is broadcast is a prefix of what the tree pushed, and each client meets it
  in that order. The thread rests only when everything is broadcast, while a round is open, or once told to exit.
* `EndToEnd`: from dispatched actions to the messages clients copy, each at its own place in the order of pushes.

## The reflection cache (`protos/thirdparty_src/proto_reflection_descriptor_database.cc`)

* `ReflectionDatabase`: the three file lookups over positive and negative caches, against a server that may omit
  files it has already sent on the stream. A reply is a parameter of the lookup, constrained to be truthful.

## Model

| member | source | states |
|---|---|---|
| ServerTrees.ServerTree.UpdateSource | src/server/server_tree.cpp:34-71 | Incremental equals from-scratch: the key is refused exactly if it is no source; otherwise every node's message and flag equal the evaluation of the graph on the latest source messages; each queue has received the snapshot of the invalidated state and then of the final state if its sink is a leaf the source reaches, and nothing otherwise; each such sink's stored data is its final message, and every other sink's is as it was |
| ServerTrees.ServerTree.InvalidateAndSend | src/server/server_tree.cpp:42-53 | After the first phase the table is the from-scratch state with the source's cone switched off; each leaf below stores its message of that state and has sent it; no other sink changes |
| ServerTrees.ServerTree.UpdateAndSend | src/server/server_tree.cpp:57-64 | After the second phase the table is the from-scratch state of the new source messages; each leaf below stores its message of that state and has sent it; no other sink changes |
| ServerTrees.ServerTree.InvalidateNode | src/server/server_tree.cpp:216-256 | For every enumeration order at every visit: the cone and nothing else is flagged invalid and loses its non-input fields, every copy along an edge out of the cone is refreshed, all other inputs and everything outside are unchanged, exactly the leaves' snapshots are taken and reported |
| ServerTrees.ServerTree.ClearNode | src/server/server_tree.cpp:218-237 | One visit keeps the other inputs, refreshes the one given, clears the rest and the flag |
| ServerTrees.ServerTree.RefreshMessage | src/server/server_tree.cpp:224-233 | The pass over the descriptor leaves only input fields, the given one holding the parent's message, the others as they were |
| ServerTrees.ServerTree.UpdateNode | src/server/server_tree.cpp:258-309 | For every enumeration order: every node of the cone ends with the flag and computed fields that its own present inputs give, copies are refreshed, flags only move from false to true, everything outside is unchanged |
| ServerTrees.ServerTree.RecomputeNode | src/server/server_tree.cpp:260-284 | One visit, even over stale inputs, keeps every node's inputs-valid and nothing-computed-while-invalid discipline; the compute function runs only if all inputs are flagged valid |
| ServerTrees.ServerTree.GatherInputs | src/server/server_tree.cpp:266-275 | In any order of inputs: the flag is true exactly if all inputs are valid, and only the given field is refreshed |
| ServerTrees.ServerTree.SendData | src/server/server_tree.cpp:49-52 | Each reported sink's snapshot is pushed once to its own queue, no other queue changes |
| ServerTrees.ServerTree.BuildNode | src/server/server_tree.cpp:159-214 | Terminates on every finite schema, recursive ones included; adds exactly types found by following input fields, each complete, blank, and a source exactly if nothing feeds it; old nodes keep their inputs; reports a node inside a oneof |
| ServerTrees.ServerTree.BuildInput | src/server/server_tree.cpp:188-203 | One singular message field of the node being built: an edge is recorded exactly if the type is a node |
| ServerTrees.ServerTree.AddOutput | src/server/server_tree.h:109-128 | Already present, refused (exactly if a type reached from the sink has a node inside a oneof), or added: then the tree is again the closure of its sinks, and a tree that was current stays current if and only if no newly reached type is fed by a node that has been touched |
| ServerTrees.ServerTree.RegisterFunction | src/server/server_tree.h:130-139 | Replaces the function of one type and touches nothing else |
| ServerTrees.ServerTree.constructor | src/server/server.cpp:19-24 | An empty tree is built and blank |
| Propagation.PropagatedCompose | src/server/server_tree.cpp:243-248 | Walks over two overlapping regions, one after the other, act as one walk over their union |
| Propagation.WalkedFromRoot | src/server/server_tree.cpp:239-249 | Visiting a node and then all its outputs walks the whole cone of the node |
| Propagation.FreshCompose | src/server/server_tree.cpp:294-302 | A node made consistent by one child's walk stays consistent through the walks of later children |
| Propagation.RecomputingVisit | src/server/server_tree.cpp:263-284 | Whatever a node's inputs hold, its visit leaves it consistent with them and disturbs no other node |
| Propagation.InvalidateYields | src/server/server_tree.cpp:42-47 | The invalidate walk from a source turns a from-scratch state into the from-scratch state of the new source message with the cone switched off |
| Propagation.UpdateYields | src/server/server_tree.cpp:57-58 | The update walk turns that state into the from-scratch state with nothing switched off |
| Propagation.BlankIsCurrent | src/server/server_tree.h:58-67 | A blank tree is the from-scratch state of no source messages |
| Evaluation.ConsistentIffEval | src/server/server_tree.cpp:258-284 | A node table in which every node agrees with its own inputs is the from-scratch evaluation, and conversely |
| Evaluation.EvalStateIsUnique | src/server/server_tree.cpp:244-247 | Two tables consistent with the same sources are equal: no order of visits or updates leaves a trace |
| Evaluation.ValidIffAllSourcesStored | src/server/server_tree.cpp:263-269 | Over whole runs a node is valid exactly when every source that reaches it has been updated |
| Evaluation.SnapshotAgrees | src/server/server_tree.cpp:221-254 | In both phases, reading a sink along any path of kept fields gives the stored message of the type at its end, so all copies through diamonds agree |
| Evaluation.RunForgets | src/server/server_tree.cpp:277-283 | Running a well-behaved function again gives what running it once on the inputs alone gives |
| Agreement.LinkedIffFirst | src/server/server_tree.cpp:196-200 | `outputs` keeps exactly the first field of each node type in a message |
| Agreement.CopyAgreesIffLinked | src/server/server_tree.h:59-61 | In every state of the sources a field is set exactly if its parent has been touched, and then equals the parent's message, if and only if it is the field that `outputs` keeps |
| Agreement.CopyReadsRightIff | src/server/server_tree.cpp:224-233 | In any one state, reading a field (unset as default) gives the parent's message if and only if `outputs` keeps the field or the parent's message is the default |
| Agreement.PresenceAgreesIffLinked | src/util/message_util.cpp:27-76 | Validity read from presence equals the server's flag for a sink with inputs, in every state of the sources, if and only if no message at or above it holds a node type twice |
| Agreement.PresenceIsValidity | src/util/message_util.cpp:37-76 | For every node and state: presence says valid exactly if the flag does and no twin lies at or above |
| Agreement.ReadValidity | src/util/message_util.cpp:27-96 | The recursive field loop over a copy it fills in as it goes computes the presence reading |
| Agreement.TwinStaysUnset | src/server/server_tree.cpp:196-200 | A concrete message with two fields of one type: flagged valid, second field unset, receiver says invalid |
| Building.FinishedIsUnique | src/server/server_tree.cpp:159-214 | The graph is a function of schema and sinks; registration and discovery order leave no trace |
| Building.FinishedGrows | src/server/server_tree.cpp:159-214 | With one more sink, the nodes are again exactly the types that the sinks reach |
| Building.NewLeafIsKey | src/server/server_tree.cpp:251-253 | Building creates no leaf other than the new sink, so the sink lookups of both walks succeed |
| ServerTrees.LeavesStaySinks | src/server/server_tree.cpp:305-306 | Every node without outputs is a registered sink, after every `add_output` |
| Extending.LateOutputIsCurrentIff | src/server/server_tree.h:110-128 | An output added to a running tree leaves it current if and only if no newly reached type is fed by a touched node |
| Extending.LateOutputLags | src/server/server_tree.h:110-128 | A concrete schema with one source and two sinks: the source is updated, then the second sink is added, and the tree is not current |
| StateProto.RegisteredFunctionsAreWellBehaved | src/server/compute_functions.cpp:17-47 | All registered functions read input fields only and set only non-input fields |
| StateTexts.StateSaysTexts | src/server/compute_functions.cpp:17-47 | For any messages given to any of the three sources: each of the eleven types is valid exactly if the sources it depends on have been given one, and then its text is the concatenation of their texts written out; otherwise it has none |
| StateTexts.StateHasInputs | protos/proto/proj/state.proto:7-75 | The finished graph has all eleven types, each with the inputs declared for it, in that order and all kept up to date |
| StateProto.StateGraphIsAcyclic | protos/proto/proj/state.proto:7-75 | The server's type graph has no cycle |
| Servers.Start | src/server/server.cpp:19-28 | The server's tree is built, computable and current before the first action; its sources are the three source types; every other built type, and no source, has a function; and the tree says the texts spelled out in `SaysTexts` for whatever the sources are given |
| Servers.RegisterComputeFunctions | src/server/compute_functions.cpp:17-47 | The eight functions are registered, each for its own type, and nothing else changes |
| Servers.DispatchAction | src/server/server.cpp:85-109 | Every set field is given to the tree in order; the tree ends current for the accumulated latest messages; each queue has grown by exactly the two snapshots of every action whose source is above its sink, in order; the error text is set exactly if no field is |
| Servers.RequestsCompose | src/server/server.cpp:91-102 | One request after another stores and pushes what their actions in one list would |
| Broadcast.ReachableIsBalanced | src/server/stream_handler.h:32-87 | In every run of any number of clients and rounds, tokens, posts, copies and client positions balance, and every log entry is its round's message, in round order |
| Broadcast.BarrierAtPop | src/server/stream_handler.h:59-63 | When a round reaches its pop, all counted clients are between post and loop wait, no token of either kind is left, and exactly n copies were taken |
| Broadcast.InvStep | src/server/stream_handler.h:40-68 | Every single step of every thread keeps the balance |
| Rounds.FrontIsStable | src/server/stream_handler.h:42-43 | Between a successful wait and the copy nothing empties the queue; the copy cannot block and reads the current round's message |
| Rounds.QueueIsShort | src/util/blocking_deque.h:13-27 | The handler's queue never holds more than one message |
| Rounds.RoundIsBounded | src/server/stream_handler.h:55-63 | Arrivals aside, every run of an open round is bounded by the work left |
| Rounds.SomeoneCanMove | src/server/stream_handler.h:40-61 | While no counted client has left the loop, some thread of an open round can move |
| Rounds.DepartedHoldsRoundOpen | src/server/stream_handler.h:51-61 | If a counted client has left the loop, the round stays open in every continuation |
| Rounds.CancelledClientIsOvertaken | src/server/stream_handler.h:40-57 | A concrete run into that state |
| Rounds.AlwaysClosesIffPastTest | src/server/stream_handler.h:40-61 | An open round closes in every interleaving if and only if every counted client is past the loop test with no leftover token to bring it back there, which is also exactly when no run loses the ability to close |
| Rounds.AlwaysClosesIffAllWait | src/server/stream_handler.h:40-63 | A round is bound to close if and only if every counted client is waiting for the queue when the message is pushed |
| Rounds.CanCloseIsNoPromise | src/server/stream_handler.h:40-57 | A concrete run to a round that can close and need not |
| Rounds.ClosesIffCanClose | src/server/stream_handler.h:40-63 | Some interleaving brings an open round to its pop if and only if no counted client has left or must leave and leftover loop tokens can be used up by a client that will stay |
| Delivery.CopiesTotalTheCount | src/server/stream_handler.h:55-63 | In every run the copies of a round total the client count when it pops |
| Delivery.NobodyParkedMeansOnce | src/server/stream_handler.h:40-63 | If nobody is parked when a round is pushed, every counted client takes its message exactly once, in every interleaving |
| Delivery.OnceIffNobodyParked | src/server/stream_handler.h:33-69 | For a round that can close, exactly-once in all interleavings holds if and only if nobody was parked or there is at most one client |
| Delivery.SureRoundServesOnce | src/server/stream_handler.h:33-69 | A round that is bound to close serves every counted client exactly once |
| Overtaking.SlowClientIsOvertaken | src/server/stream_handler.h:40-68 | A concrete run from the start: a round is pushed while one of two clients is parked, can close, and pops with two copies for the fast client and none for the parked one |
| Delivery.DrainIsBounded | src/server/stream_handler.h:72-86 | After the last round every run of the clients is bounded |
| Departures.StaysWithoutCause | src/server/stream_handler.h:40-51 | A client of a handler that is not stopped stays through every run without a shutdown, a cancellation or a failed write of its own, however long it waits in vain |
| Departures.LeavesOnlyForCause | src/server/stream_handler.h:40-51 | In every run from the start, a client that has left was given one of these causes |
| Departures.NoCopyAfterCause | src/server/stream_handler.h:40-48 | After a failed write, or a test that found its context cancelled, a client takes no further copy |
| Departures.FailedWriteLeaves | src/server/stream_handler.h:46-51 | Any write may fail, and then the client goes from the barrier out of the loop |
| Departures.StoppedCopiesAtMostOnce | src/server/stream_handler.h:40-48 | Once the flag is set, a client already waiting for a message takes at most one more copy and every other client none |
| Departures.LatecomerGoesEmptyHanded | src/server/stream_handler.h:33-52 | A client that arrives after the shutdown is counted, leaves, and takes no copy |
| Shutdown.LastRoundStops | src/server/stream_handler.h:72-86 | Whenever the sender is idle again after opening a last round, the flag is set |
| Shutdown.StoppedOnlyByLastRound | src/server/stream_handler.h:72-86 | In every run from the start, the flag is set only if a round was opened as the last one and then popped |
| Shutdown.ShutdownIsSureIffAllWait | src/server/stream_handler.h:72-81 | A shutdown can begin whenever the sender is idle, and is bound to reach its pop, after which the sender sets the flag alone, if and only if every counted client is waiting for the queue |
| Shutdown.ShutdownDrains | src/server/stream_handler.h:72-86 | In every run from the start that opens and completes a last round and opens no other: boundedly many client steps remain, and when none remains every client is gone, count and queue are empty and no token is left |
| Shutdown.LastPopLeadsToEmpty | src/server/stream_handler.h:80-86 | From the pop of a last round on, some run leads to the empty handler |
| Delivery.DrainEndsEmpty | src/server/stream_handler.h:40-52 | It can stop only when every client is gone, and then count, queue and both semaphores are empty |
| Pipeline.BroadcastIsPrefixOfPushed | src/server/server.cpp:46-63 | In every run of tree, stream thread, clients and shutdown, the messages broadcast are a prefix of those pushed, and those are the messages of the run's pushes in their order |
| Pipeline.ClientsFollowThePushes | src/server/server.cpp:46-82 | Every copy a client takes is an empty stop message or the message pushed at a definite place of the stream queue, and the places never go back |
| Pipeline.CopiesComeFromPushes | src/server/server.cpp:46-82 | Every copy belongs to a stop round, to an empty push of the destructor, or is exactly the message the tree pushed at the place of its round |
| Pipeline.RestsOnlyWhenDone | src/server/server.cpp:46-63 | In every run the stream thread can go on unless it has ended, a round is in progress, or everything pushed has been broadcast |
| Pipeline.EndsOnlyOnRequest | src/server/server.cpp:47 | The thread does not end before the exit flag is set |
| Pipeline.ExitIsHeeded | src/server/server.cpp:79-82 | After the exit request the thread takes no message but the one it may be waiting for, and its next test ends it |
| EndToEnd.ClientsAreSentEvaluations | src/server/server.cpp:46-109 | Every copy a client takes belongs to a stop round or an empty push of the destructor, or is the from-scratch message of the sink for the dispatched action to which its place in the order of pushes belongs, in the middle of that action or after it |
| ReflectionDatabase.Database.FindFileByName | protos/thirdparty_src/proto_reflection_descriptor_database.cc:59-104 | Any file returned is the server's answer; so is every result that needed no request or got a settling reply; asks exactly if the name is neither cached nor known |
| ReflectionDatabase.Database.FindFileContainingSymbol | protos/thirdparty_src/proto_reflection_descriptor_database.cc:106-152 | The same for symbols, with the negative cache; a settled symbol is never asked for again |
| ReflectionDatabase.Database.FindFileContainingExtension | protos/thirdparty_src/proto_reflection_descriptor_database.cc:154-214 | The same for extensions, with the nested negative cache |
| ReflectionDatabase.Database.AddFileFromResponse | protos/thirdparty_src/proto_reflection_descriptor_database.cc:298-308 | The cache becomes the union of all files received, indexed exactly, with `known_files_` their names |
| ReflectionDatabase.Database.Ask | protos/thirdparty_src/proto_reflection_descriptor_database.cc:116-126 | What the lookups share once the cache has not answered: a reply with files leaves the requested file cached and found as the server would answer it, any other leaves it unfound, and no settled request has been repeated |
| ReflectionDatabase.Database.DoOneRequest | protos/thirdparty_src/proto_reflection_descriptor_database.cc:318-329 | An exchange works only on a stream that never failed; then everything sent so far is known or in this response, and the requested file, if the response has files, is in it or was received before |
| ReflectionDatabase.TargetReceived | protos/proto/v1alpha/reflection.proto:78-84 | Although the server may leave out files it has sent before, a truthful response leaves the requested file in the cache |
| ReflectionDatabase.AddIndexes | protos/thirdparty_src/proto_reflection_descriptor_database.cc:303-306 | Adding a file keeps the index answering exactly what its files declare |

## Left out

- ServerNode: a value inside the `nodes` map and not a class; each node is held by a `unique_ptr` and never
  shared, so no aliasing is lost. `unordered_map` iteration is an arbitrary choice at every visit.
- BuildNode: the submessages that `build_node` creates to look at a field's type and clears again are not
  modelled; a new node starts from the default message. After a refusal (the exception) the partly built tree
  gets no guarantee.
- UpdateSource: requires a current tree. Outputs and functions are meant to be registered first, as the server
  does; for a later output the exact condition is proved, for a later function nothing is.
- UpdateSource: calls are serialized; the tree itself has no lock.
- DispatchAction: the set fields of a request are given as a list; protobuf reflection is not part of this model.
- GatherInputs: repeated, map, `oneof` and non-node submessage fields are opaque text.
- Semaphore, AtomicData and the blocking of BlockingQueue: each operation is one atomic step that is enabled
  exactly when the real one would not block; spurious wake-ups and the wrap-around of `unsigned` are not modelled.
- InvStep: `writer->Write` and `context->IsCancelled` are arbitrary booleans, the five-second wait an arbitrary
  time-out.
- BroadcastIsPrefixOfPushed: the order of shutdown calls in `~Server` is left arbitrary, which covers the real one.
- ClientsAreSentEvaluations: what the tree has pushed so far is any prefix of what the dispatched actions push;
  the tree and the stream thread share nothing but the queue.
- DoOneRequest: that a stream once failed stays failed is taken from the transport, which is not part of this model.
- ReadValidity: only the validity boolean; the DOT text and colours are not part of this model.
- FindFileContainingSymbol: a file's symbols are exactly those the index finds for it; the way
  `SimpleDescriptorDatabase` resolves names nested in a known symbol is not part of this model.
- FindAllExtensionNumbers, GetServices: thin wrappers around one request.
- Client, user interface, gRPC channels and completion queues, sleeps, logging and file output.

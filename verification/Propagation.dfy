/** What one walk does to the node table, as a relation between the tables before and after.
    Walks over overlapping cones compose; this is what makes path-by-path revisiting harmless. */
module Propagation {
  import opened Messages
  import opened Graphs
  import opened Evaluation
  import opened BlockingQueues

  type Nodes = map<NodeKey, Held>
  type Edge = (NodeKey, nat)

  /** A registered sink: the snapshot it will send and the queue it sends to. */
  datatype SinkData = SinkData(data: Message, queue: BlockingQueue<Message>)

  ghost predicate Shaped(g: Graph, h: Nodes) {
    && WellFormed(g)
    && h.Keys == g.nodes
  }

  /** The copy that field `f` of `c` holds is its parent's message as it is now. */
  ghost predicate Coherent(g: Graph, h: Nodes, c: NodeKey, f: nat)
    requires Shaped(g, h) && Linked(g, c, f)
  {
    f in h[c].message.fields && h[c].message.fields[f] == Sub(h[g.inputs[(c, f)]].message)
  }

  /** The edges refreshed by walks over region `r` that entered it along `entries`. */
  ghost predicate Fed(g: Graph, r: set<NodeKey>, entries: set<Edge>, c: NodeKey, f: nat) {
    Linked(g, c, f) && (g.inputs[(c, f)] in r || (c, f) in entries)
  }

  /** Region `r` has been walked: every refreshed edge is coherent, every other input field is as it
      was, and nothing outside the region has changed. */
  ghost predicate Propagated(g: Graph, h: Nodes, h': Nodes, r: set<NodeKey>, entries: set<Edge>) {
    && Shaped(g, h) && Shaped(g, h')
    && Closed(g, r)
    && (forall e :: e in entries ==> e.0 in r && Linked(g, e.0, e.1))
    && (forall n :: n in h && n !in r ==> h'[n] == h[n])
    && (forall c, f: nat {:trigger Fed(g, r, entries, c, f)} :: Fed(g, r, entries, c, f) ==> Coherent(g, h', c, f))
    && (forall c, f: nat {:trigger SameField(h[c].message, h'[c].message, f)} ::
          c in h && (c, f) in g.inputs && !Fed(g, r, entries, c, f) ==> SameField(h[c].message, h'[c].message, f))
  }

  /** A node outside a walked region keeps everything its consistency depends on. */
  lemma OutsideRegion(g: Graph, h: Nodes, h': Nodes, r: set<NodeKey>, entries: set<Edge>, t: NodeKey)
    requires Propagated(g, h, h', r, entries) && t in h && t !in r
    ensures h'[t] == h[t]
    ensures forall f :: (t, f) in g.inputs ==>
      g.inputs[(t, f)] in h && g.inputs[(t, f)] !in r && h'[g.inputs[(t, f)]] == h[g.inputs[(t, f)]]
  {
    forall f | (t, f) in g.inputs ensures g.inputs[(t, f)] !in r {
      assert (g.inputs[(t, f)], t) in g.outputs;
    }
  }

  lemma CoherentCompose(g: Graph, h0: Nodes, h1: Nodes, h2: Nodes, r1: set<NodeKey>, e1: set<Edge>,
                        r2: set<NodeKey>, e2: set<Edge>, c: NodeKey, f: nat)
    requires Propagated(g, h0, h1, r1, e1) && Propagated(g, h1, h2, r2, e2)
    requires Fed(g, r1, e1, c, f) || Fed(g, r2, e2, c, f)
    ensures Coherent(g, h2, c, f)
  {
    if !Fed(g, r2, e2, c, f) {
      assert Coherent(g, h1, c, f);
      assert SameField(h1[c].message, h2[c].message, f);
      assert h2[g.inputs[(c, f)]] == h1[g.inputs[(c, f)]];
    }
  }

  lemma SameFieldCompose(g: Graph, h0: Nodes, h1: Nodes, h2: Nodes, r1: set<NodeKey>, e1: set<Edge>,
                         r2: set<NodeKey>, e2: set<Edge>, c: NodeKey, f: nat)
    requires Propagated(g, h0, h1, r1, e1) && Propagated(g, h1, h2, r2, e2)
    requires c in h0 && (c, f) in g.inputs && !Fed(g, r1, e1, c, f) && !Fed(g, r2, e2, c, f)
    ensures SameField(h0[c].message, h2[c].message, f)
  {
    assert SameField(h0[c].message, h1[c].message, f);
    assert SameField(h1[c].message, h2[c].message, f);
  }

  lemma PropagatedCompose(g: Graph, h0: Nodes, h1: Nodes, h2: Nodes, r1: set<NodeKey>, e1: set<Edge>,
                          r2: set<NodeKey>, e2: set<Edge>)
    requires Propagated(g, h0, h1, r1, e1) && Propagated(g, h1, h2, r2, e2)
    ensures Propagated(g, h0, h2, r1 + r2, e1 + e2)
  {
    forall c, f: nat | Fed(g, r1 + r2, e1 + e2, c, f) ensures Coherent(g, h2, c, f) {
      CoherentCompose(g, h0, h1, h2, r1, e1, r2, e2, c, f);
    }
    forall c, f: nat | c in h0 && (c, f) in g.inputs && !Fed(g, r1 + r2, e1 + e2, c, f)
      ensures SameField(h0[c].message, h2[c].message, f)
    {
      SameFieldCompose(g, h0, h1, h2, r1, e1, r2, e2, c, f);
    }
  }

  /** The edges leaving `k`, restricted to the outputs in `cs`. */
  ghost function OutEdges(g: Graph, k: NodeKey, cs: set<NodeKey>): set<Edge>
  {
    set c | c in cs && (k, c) in g.outputs :: (c, g.outputs[(k, c)])
  }

  lemma ConesInclude(g: Graph, k: NodeKey, done: set<NodeKey>, c: NodeKey)
    requires (k, c) in g.outputs
    ensures Cones(g, done + {c}) == Cones(g, done) + Cone(g, c)
    ensures OutEdges(g, k, done + {c}) == OutEdges(g, k, done) + {(c, g.outputs[(k, c)])}
  {
  }

  lemma PropagatedNowhere(g: Graph, h: Nodes, k: NodeKey)
    requires Shaped(g, h)
    ensures Propagated(g, h, h, Cones(g, {}), OutEdges(g, k, {}))
  {
  }

  lemma PropagatedFromRoot(g: Graph, h0: Nodes, h1: Nodes, h2: Nodes, k: NodeKey, entries: set<Edge>)
    requires Dag(g) && Visited(g, h0, h1, k, entries)
    requires Propagated(g, h1, h2, Cones(g, OutputsOf(g, k)), OutEdges(g, k, OutputsOf(g, k)))
    ensures Propagated(g, h0, h2, Cone(g, k), entries)
    ensures h2[k] == h1[k]
  {
    var below, out, cone := Cones(g, OutputsOf(g, k)), OutEdges(g, k, OutputsOf(g, k)), Cone(g, k);
    ConeUnfolds(g, k);
    ConeClosed(g, k);
    assert k !in below by {
      forall c | (k, c) in g.outputs ensures k !in Cone(g, c) {
        LevelsGrow(g, k, c);
        if k in Cone(g, c) { ConeLevels(g, c, k); }
      }
    }
    forall f | (k, f) in g.inputs ensures g.inputs[(k, f)] !in cone {
      if g.inputs[(k, f)] in cone { ConeLevels(g, k, g.inputs[(k, f)]); }
    }
    forall c, f: nat | Fed(g, cone, entries, c, f) ensures Coherent(g, h2, c, f) {
      if (c, f) in entries {
        assert !Fed(g, below, out, c, f);
        assert SameField(h1[k].message, h2[k].message, f);
      } else {
        assert Fed(g, below, out, c, f);
      }
    }
    forall c, f: nat | c in h0 && (c, f) in g.inputs && !Fed(g, cone, entries, c, f)
      ensures SameField(h0[c].message, h2[c].message, f)
    {
      assert !Fed(g, below, out, c, f);
      assert SameField(h1[c].message, h2[c].message, f);
    }
  }

  // ------------------------------------------------------------------ sinks

  /** The sinks of region `r`, and no others, have taken their node's message. Queues are untouched. */
  ghost predicate SinksFollow(g: Graph, s: map<NodeKey, SinkData>, s': map<NodeKey, SinkData>, h: Nodes,
                              r: set<NodeKey>)
    requires Shaped(g, h) && r <= g.nodes
  {
    && s'.Keys == s.Keys
    && forall k {:trigger s'[k]} :: k in s ==> s'[k] == if k in Leaves(g, r) then s[k].(data := h[k].message) else s[k]
  }

  lemma SinksFollowCompose(g: Graph, s0: map<NodeKey, SinkData>, s1: map<NodeKey, SinkData>, s2: map<NodeKey, SinkData>,
                           h1: Nodes, h2: Nodes, r1: set<NodeKey>, r2: set<NodeKey>, e2: set<Edge>)
    requires Propagated(g, h1, h2, r2, e2) && r1 <= g.nodes
    requires SinksFollow(g, s0, s1, h1, r1) && SinksFollow(g, s1, s2, h2, r2)
    ensures SinksFollow(g, s0, s2, h2, r1 + r2)
    ensures Leaves(g, r1 + r2) == Leaves(g, r1) + Leaves(g, r2)
  {
  }

  /** One whole walk: the table, the sinks and the set of sinks it reports. */
  ghost predicate Walked(g: Graph, h: Nodes, h': Nodes, s: map<NodeKey, SinkData>, s': map<NodeKey, SinkData>,
                         updated: set<NodeKey>, r: set<NodeKey>, entries: set<Edge>) {
    && Propagated(g, h, h', r, entries)
    && SinksFollow(g, s, s', h', r)
    && updated == Leaves(g, r)
  }

  lemma WalkedNowhere(g: Graph, h: Nodes, s: map<NodeKey, SinkData>, k: NodeKey)
    requires Shaped(g, h)
    ensures Walked(g, h, h, s, s, {}, Cones(g, {}), OutEdges(g, k, {}))
    ensures Cleared(g, h, Cones(g, {}))
  {
    PropagatedNowhere(g, h, k);
  }

  /** The loop step of both walks: one more output of `k` has been walked. */
  lemma WalkedOneMore(g: Graph, h0: Nodes, h1: Nodes, h2: Nodes,
                      s0: map<NodeKey, SinkData>, s1: map<NodeKey, SinkData>, s2: map<NodeKey, SinkData>,
                      u1: set<NodeKey>, u2: set<NodeKey>, k: NodeKey, done: set<NodeKey>, c: NodeKey)
    requires (k, c) in g.outputs
    requires Walked(g, h0, h1, s0, s1, u1, Cones(g, done), OutEdges(g, k, done))
    requires Walked(g, h1, h2, s1, s2, u2, Cone(g, c), {(c, g.outputs[(k, c)])})
    ensures Cones(g, done + {c}) == Cones(g, done) + Cone(g, c)
    ensures Walked(g, h0, h2, s0, s2, u1 + u2, Cones(g, done + {c}), OutEdges(g, k, done + {c}))
  {
    var r1, e1, r2, e2 := Cones(g, done), OutEdges(g, k, done), Cone(g, c), {(c, g.outputs[(k, c)])};
    ConesInclude(g, k, done, c);
    PropagatedCompose(g, h0, h1, h2, r1, e1, r2, e2);
    SinksFollowCompose(g, s0, s1, s2, h1, h2, r1, r2, e2);
  }

  /** Visiting `k` itself, before its outputs: only `k` changes, and only as `entries` allow. */
  ghost predicate Visited(g: Graph, h0: Nodes, h1: Nodes, k: NodeKey, entries: set<Edge>) {
    && Shaped(g, h0) && Shaped(g, h1) && k in h0
    && (forall n :: n in h0 && n != k ==> h1[n] == h0[n])
    && (forall e :: e in entries ==> e.0 == k && Linked(g, k, e.1) && Coherent(g, h1, k, e.1))
    && (forall f :: (k, f) in g.inputs && (k, f) !in entries ==> SameField(h0[k].message, h1[k].message, f))
  }

  lemma VisitedUnchanged(g: Graph, h: Nodes, k: NodeKey)
    requires Shaped(g, h) && k in h
    ensures Visited(g, h, h, k, {})
  {
  }

  /** Visiting `k` and then all its outputs walks the whole cone of `k`. */
  lemma WalkedFromRoot(g: Graph, h0: Nodes, h1: Nodes, h2: Nodes, s1: map<NodeKey, SinkData>,
                       s2: map<NodeKey, SinkData>, updated: set<NodeKey>, k: NodeKey, entries: set<Edge>)
    requires Dag(g) && Visited(g, h0, h1, k, entries) && !IsLeaf(g, k)
    requires Walked(g, h1, h2, s1, s2, updated, Cones(g, OutputsOf(g, k)), OutEdges(g, k, OutputsOf(g, k)))
    ensures Walked(g, h0, h2, s1, s2, updated, Cone(g, k), entries)
    ensures k in h1 && k in h2 && h2[k] == h1[k] && Cone(g, k) == {k} + Cones(g, OutputsOf(g, k))
  {
    PropagatedFromRoot(g, h0, h1, h2, k, entries);
    ConeUnfolds(g, k);
    LeavesBelow(g, k);
  }

  lemma LeavesBelow(g: Graph, k: NodeKey)
    requires WellFormed(g) && k in g.nodes && !IsLeaf(g, k)
    ensures Leaves(g, Cone(g, k)) == Leaves(g, Cones(g, OutputsOf(g, k)))
  {
    ConeUnfolds(g, k);
  }

  /** A node without outputs is a sink: its cone is itself, and its snapshot is taken. */
  lemma WalkedAtLeaf(g: Graph, h0: Nodes, h1: Nodes, s: map<NodeKey, SinkData>, k: NodeKey, entries: set<Edge>)
    requires Dag(g) && Visited(g, h0, h1, k, entries) && IsLeaf(g, k) && k in s
    ensures Walked(g, h0, h1, s, s[k := s[k].(data := h1[k].message)], {k}, Cone(g, k), entries)
    ensures Cone(g, k) == {k}
  {
    assert OutputsOf(g, k) == {};
    PropagatedNowhere(g, h1, k);
    PropagatedFromRoot(g, h0, h1, h1, k, entries);
    ConeUnfolds(g, k);
    assert Cones(g, {}) == {};
  }

  /** A non-source node holds no field outside its inputs and the fields its function sets. */
  ghost predicate Bounded(g: Graph, cs: map<NodeKey, Computer>, h: Nodes) {
    forall n {:trigger NodeBounded(g, cs, h, n)} :: n in h ==> NodeBounded(g, cs, h, n)
  }

  ghost predicate NodeBounded(g: Graph, cs: map<NodeKey, Computer>, h: Nodes, n: NodeKey)
    requires n in h
  {
    !IsSource(g, n) ==> h[n].message.fields.Keys <= InputFields(g, n) + if n in cs then cs[n].writes else {}
  }

  // ------------------------------------------------------------------ the invalidate phase

  /** Every node of `r` is flagged invalid and holds nothing but input fields. */
  ghost predicate Cleared(g: Graph, h: Nodes, r: set<NodeKey>) {
    forall n {:trigger h[n]} :: n in r && n in h ==> !h[n].valid && h[n].message.fields.Keys <= InputFields(g, n)
  }

  /** The visit of one node by the invalidate walk: inputs kept but for the refreshed one, the rest cleared. */
  lemma ClearingVisit(g: Graph, cs: map<NodeKey, Computer>, h: Nodes, k: NodeKey, f: nat, message: Message)
    requires Dag(g) && Shaped(g, h) && Bounded(g, cs, h) && Linked(g, k, f)
    requires message.fields.Keys <= InputFields(g, k)
    requires f in message.fields && message.fields[f] == Sub(h[g.inputs[(k, f)]].message)
    requires forall i :: i in InputFields(g, k) && i != f ==> SameField(h[k].message, message, i)
    ensures var h' := h[k := Held(message, false)];
      Visited(g, h, h', k, {(k, f)}) && Cleared(g, h', {k}) && Bounded(g, cs, h')
  {
    hide WellFormed, Acyclic;
    var h' := h[k := Held(message, false)];
    LinkedLevels(g, k, f);
    forall n | n in h' ensures NodeBounded(g, cs, h', n) {
      assert NodeBounded(g, cs, h, n);
    }
  }

  lemma ClearedCompose(g: Graph, h1: Nodes, h2: Nodes, s1: map<NodeKey, SinkData>, s2: map<NodeKey, SinkData>,
                       u2: set<NodeKey>, r1: set<NodeKey>, r2: set<NodeKey>, e2: set<Edge>)
    requires Walked(g, h1, h2, s1, s2, u2, r2, e2) && Cleared(g, h1, r1) && Cleared(g, h2, r2)
    ensures Cleared(g, h2, r1 + r2)
  {
  }

  /** Input fields of a consistent node are the copies its parents justify, computed or not. */
  lemma ConsistentKeepsInputs(g: Graph, cs: map<NodeKey, Computer>, b: Basis, h: Nodes, t: NodeKey)
    requires Dag(g) && Shaped(g, h) && AllWellBehaved(g, cs) && t in h && !IsSource(g, t)
    requires NodeConsistent(g, cs, b, h, t)
    ensures forall f :: (t, f) in g.inputs ==> SameField(h[t].message, HeldInputs(g, b, h, t), f)
    ensures !h[t].valid ==> h[t].message.fields.Keys <= InputFields(g, t)
    ensures h[t].message.fields.Keys <= InputFields(g, t) + if t in cs then cs[t].writes else {}
  {
    var m, ins := HeldInputs(g, b, h, t), InputFields(g, t);
    assert Only(m, ins) == m;
    if h[t].valid && t in cs {
      RunForgets(cs[t], ins, m);
      forall f | f in ins ensures SameField(h[t].message, m, f) {
        assert SameField(Only(h[t].message, ins), m, f);
      }
    }
  }

  /** The nodes switched off while an update of `s` is between its two phases. */
  ghost function OffDuring(g: Graph, stored: map<NodeKey, Message>, s: NodeKey): set<NodeKey> {
    if s in stored then Cone(g, s) - {s} else Cone(g, s)
  }

  /** Storing `raw` at a source and walking its cone to invalidate leaves the from-scratch state of the
      new sources with that cone switched off. */
  lemma InvalidateYields(g: Graph, cs: map<NodeKey, Computer>, stored: map<NodeKey, Message>,
                         h0: Nodes, h1: Nodes, h2: Nodes, s: NodeKey, raw: Message)
    requires Dag(g) && AllWellBehaved(g, cs) && Shaped(g, h0) && s in h0 && IsSource(g, s)
    requires LocallyConsistent(g, cs, Basis(stored, {}), h0)
    requires h1 == h0[s := h0[s].(message := raw)]
    requires Propagated(g, h1, h2, Cone(g, s), {})
    requires Cleared(g, h2, Cone(g, s) - {s}) && h2[s] == h1[s]
    ensures LocallyConsistent(g, cs, Basis(stored[s := raw], OffDuring(g, stored, s)), h2)
  {
    var b0, b2 := Basis(stored, {}), Basis(stored[s := raw], OffDuring(g, stored, s));
    forall t | t in g.nodes ensures NodeConsistent(g, cs, b2, h2, t) {
      assert NodeConsistent(g, cs, b0, h0, t);
      if t == s {
        ConeClosed(g, s);
      } else if IsSource(g, t) {
        SourceOutsideCone(g, s, t);
      } else {
        InnerAfterInvalidate(g, cs, stored, h0, h1, h2, s, raw, t);
      }
    }
  }

  lemma SourceOutsideCone(g: Graph, k: NodeKey, t: NodeKey)
    requires WellFormed(g) && k in g.nodes && IsSource(g, t) && t != k
    ensures t !in Cone(g, k)
  {
    if t in Cone(g, k) {
      var f := ConeEnteredFromInside(g, k, t);
    }
  }

  lemma InnerAfterInvalidate(g: Graph, cs: map<NodeKey, Computer>, stored: map<NodeKey, Message>,
                             h0: Nodes, h1: Nodes, h2: Nodes, s: NodeKey, raw: Message, t: NodeKey)
    requires Dag(g) && AllWellBehaved(g, cs) && Shaped(g, h0) && s in h0 && IsSource(g, s)
    requires t in g.nodes && !IsSource(g, t) && NodeConsistent(g, cs, Basis(stored, {}), h0, t)
    requires h1 == h0[s := h0[s].(message := raw)] && Shaped(g, h1) && Shaped(g, h2)
    requires Propagated(g, h1, h2, Cone(g, s), {})
    requires Cleared(g, h2, Cone(g, s) - {s})
    ensures NodeConsistent(g, cs, Basis(stored[s := raw], OffDuring(g, stored, s)), h2, t)
  {
    var b0, b2 := Basis(stored, {}), Basis(stored[s := raw], OffDuring(g, stored, s));
    hide Propagated, Touched, WellBehaved, Cone;
    assert t in Cone(g, s) ==> !h2[t].valid && h2[t].message.fields.Keys <= InputFields(g, t);
    HeldInputsAfterInvalidate(g, cs, b0, b2, h0, h1, h2, s, t);
    ConeClosed(g, s);
    if t !in Cone(g, s) {
      OutsideRegion(g, h1, h2, Cone(g, s), {}, t);
    }
  }

  /** One input field after the invalidate walk: refreshed from inside the cone, or as it was. */
  lemma CopyAfterInvalidate(g: Graph, cs: map<NodeKey, Computer>, b0: Basis, b2: Basis,
                            h0: Nodes, h1: Nodes, h2: Nodes, s: NodeKey, t: NodeKey, f: nat)
    requires Dag(g) && AllWellBehaved(g, cs) && Shaped(g, h0) && s in h0 && IsSource(g, s)
    requires t in g.nodes && (t, f) in g.inputs && NodeConsistent(g, cs, b0, h0, t)
    requires b2.stored.Keys == b0.stored.Keys + {s}
    requires Shaped(g, h1) && forall n :: n in h0 && n != s ==> h1[n] == h0[n]
    requires Propagated(g, h1, h2, Cone(g, s), {})
    ensures t in Cone(g, s) ==> SameField(h2[t].message, HeldInputs(g, b2, h2, t), f)
    ensures t !in Cone(g, s) ==> SameField(HeldInputs(g, b2, h2, t), HeldInputs(g, b0, h0, t), f)
  {
    var cone := Cone(g, s);
    ConeClosed(g, s);
    if Fed(g, cone, {}, t, f) {
      assert Coherent(g, h2, t, f);
      TouchedInsideCone(g, b2.stored.Keys, s, g.inputs[(t, f)]);
    } else {
      if Linked(g, t, f) {
        TouchedOutsideCone(g, b0.stored.Keys, s, g.inputs[(t, f)]);
        assert h2[g.inputs[(t, f)]] == h0[g.inputs[(t, f)]];
      }
      assert SameField(HeldInputs(g, b2, h2, t), HeldInputs(g, b0, h0, t), f);
      if t in cone {
        ConsistentKeepsInputs(g, cs, b0, h0, t);
        assert SameField(h1[t].message, h2[t].message, f);
      }
    }
  }

  lemma HeldInputsAfterInvalidate(g: Graph, cs: map<NodeKey, Computer>, b0: Basis, b2: Basis,
                                  h0: Nodes, h1: Nodes, h2: Nodes, s: NodeKey, t: NodeKey)
    requires Dag(g) && AllWellBehaved(g, cs) && Shaped(g, h0) && s in h0 && IsSource(g, s)
    requires t in g.nodes && !IsSource(g, t) && NodeConsistent(g, cs, b0, h0, t)
    requires b2.stored.Keys == b0.stored.Keys + {s}
    requires Shaped(g, h1) && forall n :: n in h0 && n != s ==> h1[n] == h0[n]
    requires Propagated(g, h1, h2, Cone(g, s), {})
    requires t in Cone(g, s) ==> h2[t].message.fields.Keys <= InputFields(g, t)
    ensures HeldInputs(g, b2, h2, t) == if t in Cone(g, s) then h2[t].message else HeldInputs(g, b0, h0, t)
  {
    var other := if t in Cone(g, s) then h2[t].message else HeldInputs(g, b0, h0, t);
    forall f | f in InputFields(g, t) ensures SameField(HeldInputs(g, b2, h2, t), other, f) {
      CopyAfterInvalidate(g, cs, b0, b2, h0, h1, h2, s, t, f);
    }
    SameWithin(HeldInputs(g, b2, h2, t), other, InputFields(g, t));
  }

  // ------------------------------------------------------------------ the update phase

  ghost predicate InputsValid(g: Graph, h: Nodes, n: NodeKey)
    requires Shaped(g, h) && n in h
  {
    forall f :: (n, f) in g.inputs ==> h[g.inputs[(n, f)]].valid
  }

  /** The node's flag and computed fields are what its present input fields and parents' flags give. */
  ghost predicate Fresh(g: Graph, cs: map<NodeKey, Computer>, h: Nodes, n: NodeKey)
    requires Shaped(g, h) && n in h
  {
    && h[n].valid == InputsValid(g, h, n)
    && h[n].message == Settle(cs, n, h[n].valid, Only(h[n].message, InputFields(g, n)))
  }

  ghost predicate AllFresh(g: Graph, cs: map<NodeKey, Computer>, h: Nodes, r: set<NodeKey>)
    requires Shaped(g, h)
  {
    forall n {:trigger Fresh(g, cs, h, n)} :: n in r && n in h && !IsSource(g, n) ==> Fresh(g, cs, h, n)
  }

  /** What every step of the update walk keeps, stale copies or not: a valid node has valid inputs,
      an invalid node holds no computed field, and no node holds a field that is never cleared or set. */
  ghost predicate Recomputing(g: Graph, cs: map<NodeKey, Computer>, h: Nodes) {
    && Shaped(g, h)
    && Bounded(g, cs, h)
    && forall n {:trigger NodeRecomputing(g, h, n)} :: n in h ==> NodeRecomputing(g, h, n)
  }

  ghost predicate NodeRecomputing(g: Graph, h: Nodes, n: NodeKey)
    requires Shaped(g, h) && n in h
  {
    !IsSource(g, n) ==>
      && (h[n].valid ==> InputsValid(g, h, n))
      && (!h[n].valid ==> h[n].message.fields.Keys <= InputFields(g, n))
  }

  /** What the visit of `k` by the update walk leaves there. A source has no inputs to wait for. */
  ghost predicate Recomputed(g: Graph, cs: map<NodeKey, Computer>, h: Nodes, h': Nodes, k: NodeKey)
    requires Shaped(g, h') && k in h && k in h'
  {
    if IsSource(g, k) then h'[k] == Held(Settle(cs, k, true, h[k].message), true)
    else Fresh(g, cs, h', k)
  }

  /** Flags only move from invalid to valid. */
  ghost predicate ValidGrows(h: Nodes, h': Nodes) {
    h.Keys == h'.Keys && forall n :: n in h && h[n].valid ==> h'[n].valid
  }

  /** The message a visit of `k` starts from: its own, with at most one input refreshed. */
  ghost predicate Gathered(g: Graph, h: Nodes, k: NodeKey, entries: set<Edge>, m: Message)
    requires Shaped(g, h) && k in h
  {
    if entries == {} then m == h[k].message
    else exists f :: entries == {(k, f)} && Linked(g, k, f) && m == SetSub(h[k].message, f, h[g.inputs[(k, f)]].message)
  }

  /** The visit of one node by the update walk, whatever its inputs hold at that moment. */
  lemma RecomputingVisit(g: Graph, cs: map<NodeKey, Computer>, h: Nodes, k: NodeKey, entries: set<Edge>,
                         gathered: Message, valid: bool)
    requires Dag(g) && AllWellBehaved(g, cs) && Recomputing(g, cs, h) && k in h
    requires valid == InputsValid(g, h, k) && Gathered(g, h, k, entries, gathered)
    ensures var h' := h[k := Held(Settle(cs, k, valid, gathered), valid)];
      && Visited(g, h, h', k, entries) && Recomputing(g, cs, h') && Recomputed(g, cs, h, h', k) && ValidGrows(h, h')
  {
    var h' := h[k := Held(Settle(cs, k, valid, gathered), valid)];
    assert NodeBounded(g, cs, h, k) && NodeRecomputing(g, h, k);
    hide Recomputing, Bounded, WellBehaved, AllWellBehaved, Visited, Linked;
    InputsElsewhere(g, k);
    if !IsSource(g, k) {
      GatheredWithin(g, cs, h, k, entries, gathered, valid);
      GatheredSettles(g, cs, h, k, gathered, valid);
    } else {
      SourceHasNoEntry(g, h, k, entries, gathered);
    }
    VisitKeepsInputs(g, h, h', k, entries, gathered);
    assert InputsValid(g, h', k) == InputsValid(g, h, k);
    OthersRecomputing(g, cs, h, h', k);
  }

  lemma InputsElsewhere(g: Graph, k: NodeKey)
    requires Dag(g)
    ensures forall f :: (k, f) in g.inputs ==> g.inputs[(k, f)] != k && g.inputs[(k, f)] in g.nodes
  {
    forall f | (k, f) in g.inputs ensures g.inputs[(k, f)] != k {
      assert Level(g, g.inputs[(k, f)]) < Level(g, k);
    }
  }

  lemma GatheredWithin(g: Graph, cs: map<NodeKey, Computer>, h: Nodes, k: NodeKey, entries: set<Edge>,
                       gathered: Message, valid: bool)
    requires Shaped(g, h) && k in h && !IsSource(g, k) && NodeBounded(g, cs, h, k) && NodeRecomputing(g, h, k)
    requires valid == InputsValid(g, h, k) && Gathered(g, h, k, entries, gathered)
    ensures gathered.fields.Keys <= InputFields(g, k) + if k in cs then cs[k].writes else {}
    ensures !valid ==> gathered.fields.Keys <= InputFields(g, k)
  {
    if entries != {} {
      var f :| && entries == {(k, f)} && Linked(g, k, f)
               && gathered == SetSub(h[k].message, f, h[g.inputs[(k, f)]].message);
      assert gathered.fields.Keys == h[k].message.fields.Keys + {f};
    }
  }

  lemma SourceHasNoEntry(g: Graph, h: Nodes, k: NodeKey, entries: set<Edge>, gathered: Message)
    requires Shaped(g, h) && k in h && IsSource(g, k) && Gathered(g, h, k, entries, gathered)
    ensures entries == {} && gathered == h[k].message && InputsValid(g, h, k)
  {
  }

  lemma VisitKeepsInputs(g: Graph, h: Nodes, h': Nodes, k: NodeKey, entries: set<Edge>, gathered: Message)
    requires Dag(g) && Shaped(g, h) && Shaped(g, h') && k in h && Gathered(g, h, k, entries, gathered)
    requires forall n :: n in h && n != k ==> h'[n] == h[n]
    requires forall f :: f in InputFields(g, k) ==> SameField(gathered, h'[k].message, f)
    ensures Visited(g, h, h', k, entries)
  {
    if entries != {} {
      var f :| && entries == {(k, f)} && Linked(g, k, f)
               && gathered == SetSub(h[k].message, f, h[g.inputs[(k, f)]].message);
      LinkedLevels(g, k, f);
      assert SameField(gathered, h'[k].message, f);
    }
    forall i | (k, i) in g.inputs && (k, i) !in entries ensures SameField(h[k].message, h'[k].message, i) {
      assert SameField(gathered, h'[k].message, i);
    }
  }

  lemma OthersRecomputing(g: Graph, cs: map<NodeKey, Computer>, h: Nodes, h': Nodes, k: NodeKey)
    requires Recomputing(g, cs, h) && Shaped(g, h') && k in h && ValidGrows(h, h')
    requires forall n :: n in h && n != k ==> h'[n] == h[n]
    requires NodeBounded(g, cs, h', k) && NodeRecomputing(g, h', k)
    ensures Recomputing(g, cs, h')
  {
    forall n | n in h' ensures NodeBounded(g, cs, h', n) && NodeRecomputing(g, h', n) {
      assert NodeBounded(g, cs, h, n) && NodeRecomputing(g, h, n);
    }
  }

  lemma GatheredSettles(g: Graph, cs: map<NodeKey, Computer>, h: Nodes, k: NodeKey, gathered: Message, valid: bool)
    requires AllWellBehaved(g, cs) && Shaped(g, h) && k in h && !IsSource(g, k)
    requires gathered.fields.Keys <= InputFields(g, k) + if k in cs then cs[k].writes else {}
    requires !valid ==> gathered.fields.Keys <= InputFields(g, k)
    ensures var m, ins := Settle(cs, k, valid, gathered), InputFields(g, k);
      && m == Settle(cs, k, valid, Only(m, ins))
      && m.fields.Keys <= ins + (if k in cs then cs[k].writes else {})
      && (!valid ==> m.fields.Keys <= ins)
      && forall f :: f in ins ==> SameField(gathered, m, f)
  {
    var m, ins := Settle(cs, k, valid, gathered), InputFields(g, k);
    if valid && k in cs {
      assert WellBehaved(cs[k], ins);
      RunForgets(cs[k], ins, gathered);
      forall f | f in ins ensures SameField(gathered, m, f) {
        assert SameField(Only(gathered, ins), Only(m, ins), f);
      }
    } else {
      SameWithin(m, Only(m, ins), ins);
    }
  }

  /** Once its outputs are walked, a node that was recomputed and everything below it is fresh. */
  lemma FreshFromRoot(g: Graph, cs: map<NodeKey, Computer>, h0: Nodes, h1: Nodes, h2: Nodes, k: NodeKey,
                      s1: map<NodeKey, SinkData>, s2: map<NodeKey, SinkData>, updated: set<NodeKey>)
    requires Dag(g) && Shaped(g, h1) && k in h0 && k in h1 && Recomputed(g, cs, h0, h1, k)
    requires Walked(g, h1, h2, s1, s2, updated, Cones(g, OutputsOf(g, k)), OutEdges(g, k, OutputsOf(g, k)))
    requires AllFresh(g, cs, h2, Cones(g, OutputsOf(g, k))) && h2[k] == h1[k]
    ensures AllFresh(g, cs, h2, Cone(g, k))
  {
    hide Cone, Cones, Leaves, Fed, Coherent, OutEdges;
    ConeUnfolds(g, k);
    if !IsSource(g, k) {
      forall f | (k, f) in g.inputs ensures h2[g.inputs[(k, f)]] == h1[g.inputs[(k, f)]] {
        if g.inputs[(k, f)] in Cones(g, OutputsOf(g, k)) {
          ConeLevels(g, k, g.inputs[(k, f)]);
        }
      }
      assert Fresh(g, cs, h2, k);
    }
  }

  lemma FreshAtLeaf(g: Graph, cs: map<NodeKey, Computer>, h0: Nodes, h1: Nodes, k: NodeKey)
    requires Dag(g) && Shaped(g, h1) && k in h0 && k in h1 && Recomputed(g, cs, h0, h1, k) && IsLeaf(g, k)
    ensures AllFresh(g, cs, h1, Cone(g, k))
  {
    ConeUnfolds(g, k);
    assert OutputsOf(g, k) == {};
  }

  /** A fresh node stays fresh when a region it does not belong to is walked. */
  lemma FreshCompose(g: Graph, cs: map<NodeKey, Computer>, h1: Nodes, h2: Nodes,
                     s1: map<NodeKey, SinkData>, s2: map<NodeKey, SinkData>, u2: set<NodeKey>,
                     r1: set<NodeKey>, r2: set<NodeKey>, e2: set<Edge>)
    requires Walked(g, h1, h2, s1, s2, u2, r2, e2)
    requires AllFresh(g, cs, h1, r1) && AllFresh(g, cs, h2, r2)
    ensures AllFresh(g, cs, h2, r1 + r2)
  {
    forall n | n in r1 + r2 && n in h2 && !IsSource(g, n) ensures Fresh(g, cs, h2, n) {
      if n !in r2 {
        assert Fresh(g, cs, h1, n);
        OutsideRegion(g, h1, h2, r2, e2, n);
      }
    }
  }

  /** Between the phases the table is ready to be recomputed. */
  lemma ConsistentIsRecomputing(g: Graph, cs: map<NodeKey, Computer>, b: Basis, h: Nodes)
    requires Dag(g) && AllWellBehaved(g, cs) && Shaped(g, h) && LocallyConsistent(g, cs, b, h)
    ensures Recomputing(g, cs, h)
  {
    forall n | n in h ensures NodeBounded(g, cs, h, n) && NodeRecomputing(g, h, n) {
      assert NodeConsistent(g, cs, b, h, n);
      if !IsSource(g, n) {
        ConsistentKeepsInputs(g, cs, b, h, n);
      }
    }
  }

  /** Walking the cone of a source to update leaves the from-scratch state with nothing switched off. */
  lemma UpdateYields(g: Graph, cs: map<NodeKey, Computer>, stored: map<NodeKey, Message>, off: set<NodeKey>,
                     h2: Nodes, h3: Nodes, s: NodeKey)
    requires Dag(g) && AllWellBehaved(g, cs) && Shaped(g, h2) && s in h2 && IsSource(g, s) && s in stored
    requires off <= Cone(g, s) && LocallyConsistent(g, cs, Basis(stored, off), h2)
    requires Propagated(g, h2, h3, Cone(g, s), {}) && AllFresh(g, cs, h3, Cone(g, s))
    requires h3[s].valid && h3[s].message == Settle(cs, s, true, h2[s].message)
    ensures LocallyConsistent(g, cs, Basis(stored[s := h3[s].message], {}), h3)
  {
    var b2, b3 := Basis(stored, off), Basis(stored[s := h3[s].message], {});
    ConeClosed(g, s);
    assert b3.stored.Keys == b2.stored.Keys;
    forall t | t in g.nodes ensures NodeConsistent(g, cs, b3, h3, t) {
      assert NodeConsistent(g, cs, b2, h2, t);
      if IsSource(g, t) {
        if t != s && t in Cone(g, s) {
          var f := ConeEnteredFromInside(g, s, t);
        }
      } else {
        HeldInputsAfterUpdate(g, cs, b2, b3, h2, h3, s, t);
        if t in Cone(g, s) {
          assert Fresh(g, cs, h3, t);
        } else {
          OutsideRegion(g, h2, h3, Cone(g, s), {}, t);
        }
      }
    }
  }

  lemma CopyAfterUpdate(g: Graph, cs: map<NodeKey, Computer>, b2: Basis, b3: Basis,
                        h2: Nodes, h3: Nodes, s: NodeKey, t: NodeKey, f: nat)
    requires Dag(g) && AllWellBehaved(g, cs) && Shaped(g, h2) && s in h2 && IsSource(g, s)
    requires s in b2.stored && b3.stored.Keys == b2.stored.Keys
    requires t in g.nodes && (t, f) in g.inputs && NodeConsistent(g, cs, b2, h2, t)
    requires Propagated(g, h2, h3, Cone(g, s), {})
    ensures t in Cone(g, s) ==> SameField(h3[t].message, HeldInputs(g, b3, h3, t), f)
    ensures t !in Cone(g, s) ==> SameField(HeldInputs(g, b3, h3, t), HeldInputs(g, b2, h2, t), f)
  {
    var cone := Cone(g, s);
    ConeClosed(g, s);
    if Fed(g, cone, {}, t, f) {
      assert Coherent(g, h3, t, f);
      TouchedInsideCone(g, b2.stored.Keys, s, g.inputs[(t, f)]);
    } else {
      assert Linked(g, t, f) ==> h3[g.inputs[(t, f)]] == h2[g.inputs[(t, f)]];
      assert SameField(HeldInputs(g, b3, h3, t), HeldInputs(g, b2, h2, t), f);
      if t in cone {
        ConsistentKeepsInputs(g, cs, b2, h2, t);
        assert SameField(h2[t].message, h3[t].message, f);
      }
    }
  }

  lemma HeldInputsAfterUpdate(g: Graph, cs: map<NodeKey, Computer>, b2: Basis, b3: Basis,
                              h2: Nodes, h3: Nodes, s: NodeKey, t: NodeKey)
    requires Dag(g) && AllWellBehaved(g, cs) && Shaped(g, h2) && s in h2 && IsSource(g, s)
    requires s in b2.stored && b3.stored.Keys == b2.stored.Keys
    requires t in g.nodes && !IsSource(g, t) && NodeConsistent(g, cs, b2, h2, t)
    requires Propagated(g, h2, h3, Cone(g, s), {})
    ensures HeldInputs(g, b3, h3, t)
         == if t in Cone(g, s) then Only(h3[t].message, InputFields(g, t)) else HeldInputs(g, b2, h2, t)
  {
    var other := if t in Cone(g, s) then Only(h3[t].message, InputFields(g, t)) else HeldInputs(g, b2, h2, t);
    forall f | f in InputFields(g, t) ensures SameField(HeldInputs(g, b3, h3, t), other, f) {
      CopyAfterUpdate(g, cs, b2, b3, h2, h3, s, t, f);
    }
    SameWithin(HeldInputs(g, b3, h3, t), other, InputFields(g, t));
  }

  // ------------------------------------------------------------------ one update

  /** The basis between the two phases of giving `raw` to source `s`. */
  ghost function Between(g: Graph, cs: map<NodeKey, Computer>, latest: map<NodeKey, Message>, s: NodeKey, raw: Message)
    : Basis
  {
    Basis(Stored(cs, latest)[s := raw], OffDuring(g, Stored(cs, latest), s))
  }

  ghost function Settled(cs: map<NodeKey, Computer>, latest: map<NodeKey, Message>): Basis {
    Basis(Stored(cs, latest), {})
  }

  /** The sinks after a phase of an update of `s`: each leaf that `s` reaches has taken its from-scratch
      message, and the others are as they were. */
  ghost function Refreshed(g: Graph, cs: map<NodeKey, Computer>, b: Basis, s: NodeKey, sinks: map<NodeKey, SinkData>)
    : map<NodeKey, SinkData>
    requires Dag(g)
  {
    map k | k in sinks ::
      if k in Leaves(g, Cone(g, s)) then sinks[k].(data := EvalMsg(g, cs, b, k)) else sinks[k]
  }

  lemma SinksRefreshed(g: Graph, cs: map<NodeKey, Computer>, b: Basis, h: Nodes, h': Nodes,
                       sinks: map<NodeKey, SinkData>, sinks': map<NodeKey, SinkData>, updated: set<NodeKey>, s: NodeKey)
    requires Dag(g) && Walked(g, h, h', sinks, sinks', updated, Cone(g, s), {}) && HoldsEval(g, cs, b, h')
    ensures sinks' == Refreshed(g, cs, b, s, sinks)
  {
    forall k | k in sinks ensures sinks'[k] == Refreshed(g, cs, b, s, sinks)[k] {
      assert k in Leaves(g, Cone(g, s)) ==> NodeHoldsEval(g, cs, b, h', k);
    }
  }

  /** The second phase replaces every snapshot that the first one took. */
  lemma RefreshedAgain(g: Graph, cs: map<NodeKey, Computer>, b: Basis, b': Basis, s: NodeKey,
                       sinks: map<NodeKey, SinkData>)
    requires Dag(g)
    ensures Refreshed(g, cs, b', s, Refreshed(g, cs, b, s, sinks)) == Refreshed(g, cs, b', s, sinks)
  {
  }

  lemma StoringKeepsBounds(g: Graph, cs: map<NodeKey, Computer>, h: Nodes, s: NodeKey, x: Held)
    requires Bounded(g, cs, h) && s in h && IsSource(g, s)
    ensures Bounded(g, cs, h[s := x])
  {
    forall n | n in h ensures NodeBounded(g, cs, h[s := x], n) {
      assert NodeBounded(g, cs, h, n);
    }
  }

  lemma InvalidatePhase(g: Graph, cs: map<NodeKey, Computer>, latest: map<NodeKey, Message>, h0: Nodes, h1: Nodes,
                        h2: Nodes,
                        s1: map<NodeKey, SinkData>, s2: map<NodeKey, SinkData>, updated: set<NodeKey>, s: NodeKey,
                        raw: Message)
    requires Dag(g) && AllWellBehaved(g, cs) && Shaped(g, h0) && s in h0 && IsSource(g, s)
    requires HoldsEval(g, cs, Settled(cs, latest), h0) && h1 == h0[s := Held(raw, h0[s].valid)]
    requires Walked(g, h1, h2, s1, s2, updated, Cone(g, s), {}) && Cleared(g, h2, Cone(g, s) - {s})
    requires s in h2 && h2[s] == h1[s]
    ensures HoldsEval(g, cs, Between(g, cs, latest, s, raw), h2) && Recomputing(g, cs, h2)
    ensures s2 == Refreshed(g, cs, Between(g, cs, latest, s, raw), s, s1)
  {
    hide HoldsEval, LocallyConsistent, Recomputing, Refreshed, Cleared;
    ConsistentIffEval(g, cs, Settled(cs, latest), h0);
    InvalidateYields(g, cs, Stored(cs, latest), h0, h1, h2, s, raw);
    ConsistentIffEval(g, cs, Between(g, cs, latest, s, raw), h2);
    ConsistentIsRecomputing(g, cs, Between(g, cs, latest, s, raw), h2);
    SinksRefreshed(g, cs, Between(g, cs, latest, s, raw), h1, h2, s1, s2, updated, s);
  }

  lemma UpdatePhase(g: Graph, cs: map<NodeKey, Computer>, latest: map<NodeKey, Message>, h2: Nodes, h3: Nodes,
                    s2: map<NodeKey, SinkData>, s3: map<NodeKey, SinkData>, updated: set<NodeKey>, s: NodeKey,
                    raw: Message)
    requires Dag(g) && AllWellBehaved(g, cs) && Shaped(g, h2) && s in h2 && IsSource(g, s) && h2[s].message == raw
    requires HoldsEval(g, cs, Between(g, cs, latest, s, raw), h2)
    requires Walked(g, h2, h3, s2, s3, updated, Cone(g, s), {}) && AllFresh(g, cs, h3, Cone(g, s))
    requires s in h3 && h3[s] == Held(Settle(cs, s, true, raw), true)
    ensures HoldsEval(g, cs, Settled(cs, latest[s := raw]), h3)
    ensures s3 == Refreshed(g, cs, Settled(cs, latest[s := raw]), s, s2)
  {
    hide HoldsEval, LocallyConsistent, Refreshed, AllFresh, Cone;
    var b := Between(g, cs, latest, s, raw);
    ConsistentIffEval(g, cs, b, h2);
    UpdateYields(g, cs, b.stored, b.off, h2, h3, s);
    assert b.stored[s := h3[s].message] == Stored(cs, latest[s := raw]);
    ConsistentIffEval(g, cs, Settled(cs, latest[s := raw]), h3);
    SinksRefreshed(g, cs, Settled(cs, latest[s := raw]), h2, h3, s2, s3, updated, s);
  }

  lemma BlankIsCurrent(g: Graph, cs: map<NodeKey, Computer>, h: Nodes)
    requires Dag(g) && Shaped(g, h) && forall t :: t in h ==> h[t] == Held(DEFAULT, false)
    ensures HoldsEval(g, cs, Settled(cs, map[]), h)
  {
    assert Stored(cs, map[]) == map[];
    forall t | t in g.nodes ensures NodeHoldsEval(g, cs, Settled(cs, map[]), h, t) {
      NothingStored(g, cs, {}, t);
    }
  }

  lemma CurrentIsBounded(g: Graph, cs: map<NodeKey, Computer>, b: Basis, h: Nodes)
    requires Dag(g) && AllWellBehaved(g, cs) && Shaped(g, h) && HoldsEval(g, cs, b, h)
    ensures Bounded(g, cs, h)
  {
    ConsistentIffEval(g, cs, b, h);
    ConsistentIsRecomputing(g, cs, b, h);
  }

  /** What a phase of an update of `s` pushes to the queue of sink `k`: the from-scratch message of that
      sink if it is a leaf that `s` reaches, and nothing otherwise. */
  ghost function Snapshot(g: Graph, cs: map<NodeKey, Computer>, b: Basis, s: NodeKey, k: NodeKey): seq<Message>
    requires Dag(g)
  {
    if k in Leaves(g, Cone(g, s)) then [EvalMsg(g, cs, b, k)] else []
  }

  lemma SnapshotSent(g: Graph, cs: map<NodeKey, Computer>, b: Basis, s: NodeKey, k: NodeKey, updated: set<NodeKey>,
                     sinks: map<NodeKey, SinkData>, sinks': map<NodeKey, SinkData>)
    requires Dag(g) && updated == Leaves(g, Cone(g, s)) && k in sinks && sinks' == Refreshed(g, cs, b, s, sinks)
    ensures Snapshot(g, cs, b, s, k) == if k in updated then [sinks'[k].data] else []
  {
  }
}

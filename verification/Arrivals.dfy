/**
 Vertices may arrive before their parents.  What an insertion makes ready, and why, without
 votes, the inserted graph does not depend on the order of arrival (src/consensus/dag.rs:
 `try_insert`, `retry_pending`; src/consensus/task.rs).
 */
module Arrivals {
  import opened Vertices
  import opened Ancestry
  import opened DagTypes
  import opened Search
  import opened ActiveSets
  import opened Voting
  import opened Insertion
  import opened Dags
  import opened Steps
  import opened Runs

  // ----- what an insertion makes ready -----

  /** The known vertices which would pass the checks now. */
  ghost function Ready(d: Dag): set<VertexHash>
    requires Grounded(d.graph)
  {
    set h | h in d.vertex && Passes(d, d.vertex[h])
  }

  /** The search from inserted vertices is not affected by an insertion. */
  lemma SearchUnaffected(g: Graph, st: State, v: Vertex, ps: seq<VertexHash>)
    requires Grounded(g) && StateOk(g, st) && Joins(g, v) && AllInserted(g, ps)
    ensures Grounded(With(g, v)) && AllInserted(With(g, v), ps)
    ensures var D, D' := DecidedIn(g, st), DecidedIn(With(g, v), InsertState(g, st, v));
            && OpenAll(With(g, v), D', ps) == OpenAll(g, D, ps)
            && Active(With(g, v), D', ps) == Active(g, D, ps)
    ensures HitsRejected(InsertState(g, st, v), OpenAll(g, DecidedIn(g, st), ps)) <==>
        HitsRejected(st, OpenAll(g, DecidedIn(g, st), ps))
  {
    GrownGrounded(g, v);
    forall x | x in g ensures Dec(InsertState(g, st, v), Unity(x)) == Dec(st, Unity(x)) {
      RegMember(g, x, Unity(x));
      InsertKeeps(g, st, v, Unity(x));
    }
    hide InsertState, Dec, StateOk, Grounded, Active, OpenAll, With, Joins;
    ActiveStable(g, With(g, v), DecidedIn(g, st), DecidedIn(With(g, v), InsertState(g, st, v)), ps);
  }

  /** An undecided constraint with a conflict set is still met after an insertion. */
  lemma MetConstraintKept(g: Graph, st: State, v: Vertex, ps: seq<VertexHash>, c: Constraint)
    requires Grounded(g) && StateOk(g, st) && Joins(g, v) && AllInserted(g, ps)
    requires c in OpenConstraints(g, st, ps) && c.Key() in st
    ensures Grounded(With(g, v)) && AllInserted(With(g, v), ps)
    ensures c in OpenConstraints(With(g, v), InsertState(g, st, v), ps)
  {
    hide Grounded, StateOk, Joins, With, InsertState, Active, Dec, DecidedIn;
    SearchUnaffected(g, st, v, ps);
    GrownGrounded(g, v);
    var S := Active(g, DecidedIn(g, st), ps);
    forall x | x in S ensures x in g { ActiveSound(g, DecidedIn(g, st), ps, x); }
    InsertKeeps(g, st, v, c);
  }

  /** Constraints which conflict have a conflict set, for a parent list alone never conflicts. */
  lemma ConflictRegistered(g: Graph, st: State, ps: seq<VertexHash>, c: Constraint)
    requires Grounded(g) && StateOk(g, st) && AllInserted(g, ps) && Distinct(ps)
    requires c in OpenConstraints(g, st, ps) && !c.IsUnity() && c.Flip() in OpenConstraints(g, st, ps)
    ensures c.Key() in st
  {
    hide Grounded, Active, Dec, DecidedIn, Distinct, StateOk, Reg, Committed;
    assert c.Key() == c.Flip().Key();
    CommittedRegistered(g, Active(g, DecidedIn(g, st), ps));
    KeysOfReg(g, st);
    if c in PC(ps) && c.Flip() in PC(ps) {
      OneOrientation(ps, c.left, c.right);
    }
  }

  /** A conflict met by the search is still met after an insertion. */
  lemma ConflictKept(g: Graph, st: State, v: Vertex, ps: seq<VertexHash>)
    requires Grounded(g) && StateOk(g, st) && Joins(g, v) && AllInserted(g, ps) && Distinct(ps)
    requires HasConflict(OpenConstraints(g, st, ps))
    ensures Grounded(With(g, v)) && AllInserted(With(g, v), ps)
    ensures HasConflict(OpenConstraints(With(g, v), InsertState(g, st, v), ps))
  {
    hide Grounded, StateOk, Joins, With, InsertState, OpenConstraints, Distinct;
    var c :| c in OpenConstraints(g, st, ps) && !c.IsUnity() && c.Flip() in OpenConstraints(g, st, ps);
    assert c.Key() == c.Flip().Key();
    ConflictRegistered(g, st, ps, c);
    MetConstraintKept(g, st, v, ps, c);
    MetConstraintKept(g, st, v, ps, c.Flip());
  }

  /** Inserting a vertex makes only its children ready. */
  lemma ReadyBefore(d: Dag, v: Vertex, w: Vertex)
    requires WellFormed(d) && Joins(d.graph, v) && Grounded(With(d.graph, v)) && v.hash !in w.parents
    requires Insert(d, v).graph == With(d.graph, v) && Passes(Insert(d, v), w)
    ensures Passes(d, w)
  {
    hide WellFormed, Grounded, StateOk, Joins, InsertState, HitsRejected, OpenAll, OpenConstraints, HasConflict,
         Antichain, DecidedIn, Insert, Active;
    InsertParts(d, v);
    NotYetIn(d.graph, v);
    GraphOf(d);
    GrownGrounded(d.graph, v);
    SearchUnaffected(d.graph, d.state, v, w.parents);
    AntichainStable(d.graph, With(d.graph, v), w.parents);
    if HasConflict(OpenConstraints(d.graph, d.state, w.parents)) {
      ConflictKept(d.graph, d.state, v, w.parents);
    }
  }

  /** No conflict appears with an insertion. */
  lemma NoNewConflict(g: Graph, st: State, v: Vertex, ps: seq<VertexHash>, c: Constraint)
    requires Grounded(g) && StateOk(g, st) && Joins(g, v) && AllInserted(g, ps)
    requires Grounded(With(g, v)) && AllInserted(With(g, v), ps) &&
        c in OpenConstraints(With(g, v), InsertState(g, st, v), ps)
    ensures c in OpenConstraints(g, st, ps)
  {
    hide Grounded, StateOk, Joins, With, InsertState, Active, DecidedIn;
    SearchUnaffected(g, st, v, ps);
    GrownGrounded(g, v);
    var S := Active(g, DecidedIn(g, st), ps);
    forall x | x in S ensures x in g { ActiveSound(g, DecidedIn(g, st), ps, x); }
    if c.Key() in st { InsertKeeps(g, st, v, c); }
  }

  /** Inserting another vertex keeps a ready vertex ready. */
  lemma ReadyKept(d: Dag, v: Vertex, w: Vertex)
    requires WellFormed(d) && Joins(d.graph, v) && Grounded(With(d.graph, v))
    requires Insert(d, v).graph == With(d.graph, v) && Passes(d, w) && w.hash != v.hash
    ensures Passes(Insert(d, v), w)
  {
    hide WellFormed, Grounded, StateOk, Joins, InsertState, HitsRejected, OpenAll, OpenConstraints, Antichain,
         DecidedIn, Insert, Active;
    InsertParts(d, v);
    NotYetIn(d.graph, v);
    GraphOf(d);
    GrownGrounded(d.graph, v);
    SearchUnaffected(d.graph, d.state, v, w.parents);
    AntichainStable(d.graph, With(d.graph, v), w.parents);
    forall c | c in OpenConstraints(With(d.graph, v), InsertState(d.graph, d.state, v), w.parents)
      ensures c in OpenConstraints(d.graph, d.state, w.parents)
    {
      NoNewConflict(d.graph, d.state, v, w.parents, c);
    }
  }

  /** The known children of `h` not inserted yet. */
  function Waiting(d: Dag, h: VertexHash): set<VertexHash> {
    if h in d.children then set w | w in d.children[h] && w !in d.graph else {}
  }

  lemma ReadyAfterInsert(d: Dag, v: Vertex)
    requires WellFormed(d) && Passes(d, v) && (v.hash in d.vertex ==> d.vertex[v.hash] == v)
    ensures Joins(d.graph, v) && WellFormed(Insert(d, v))
    ensures v.hash !in Ready(Insert(d, v)) && Ready(Insert(d, v)) <= Ready(d) + Waiting(Insert(d, v), v.hash)
  {
    hide WellFormed, InsertState;
    InsertWellFormed(d, v);
    GraphOf(d);
    GrownGrounded(d.graph, v);
    forall h | h in Ready(Insert(d, v))
      ensures h in Ready(d) + Waiting(Insert(d, v), v.hash) && h != v.hash
    {
      NotInserted(Insert(d, v), h);
      ReadyCase(d, v, h);
    }
  }

  lemma ReadyMeans(d: Dag, v: Vertex)
    requires WellFormed(d) && Legal(d, Submit(v)) && v.hash in Ready(d)
    ensures Passes(d, v)
  {
    hide Passes;
  }

  lemma ReadyKeptByInsert(d: Dag, v: Vertex)
    requires WellFormed(d) && Joins(d.graph, v) && Grounded(With(d.graph, v)) && Insert(d, v).graph == With(d.graph, v)
    requires v.hash in d.vertex ==> d.vertex[v.hash] == v
    ensures Ready(d) - {v.hash} <= Ready(Insert(d, v))
  {
    hide WellFormed, Grounded, Joins, With, InsertState, Passes, Insert;
    GraphOf(d);
    InsertParts(d, v);
    forall h | h in Ready(d) && h != v.hash
      ensures h in Ready(Insert(d, v))
    {
      NotInserted(d, h);
      ReadyKept(d, v, d.vertex[h]);
    }
  }

  lemma NotInserted(d: Dag, h: VertexHash)
    requires WellFormed(d) && h in Ready(d)
    ensures h !in d.graph && d.vertex[h].hash == h
  {
  }

  lemma ReadyCase(d: Dag, v: Vertex, h: VertexHash)
    requires WellFormed(d) && Joins(d.graph, v) && WellFormed(Insert(d, v)) &&
        (v.hash in d.vertex ==> d.vertex[v.hash] == v)
    requires h in Ready(Insert(d, v)) && h != v.hash
    ensures h in Ready(d) || h in Waiting(Insert(d, v), v.hash)
  {
    hide InsertState, Grounded, StateOk, Passes;
    var w := d.vertex[h];
    assert Insert(d, v).vertex[h] == w;
    if v.hash in w.parents {
      NotInserted(Insert(d, v), h);
    } else {
      GraphOf(d);
      GrownGrounded(d.graph, v);
      InsertParts(d, v);
      ReadyBefore(d, v, w);
    }
  }

  /** A submission makes ready at most the known children of the submitted vertex, and leaves
      every other ready vertex ready. */
  lemma ReadyAfterSubmit(d: Dag, v: Vertex)
    requires WellFormed(d) && Legal(d, Submit(v))
    ensures Ready(Next(d, Submit(v))) <= Ready(d) + (if Passes(d, v) then Waiting(Next(d, Submit(v)), v.hash) else {})
    ensures Ready(d) - {v.hash} <= Ready(Next(d, Submit(v)))
    ensures v.hash !in Ready(Next(d, Submit(v)))
  {
    hide WellFormed, Ready, Waiting, Passes, Insert, Learn, MustWait, Grounded;
    GraphOf(d);
    if Passes(d, v) {
      TryInsertPasses(d, v);
      ReadyAfterInsert(d, v);
      GrownGrounded(d.graph, v);
      InsertParts(d, v);
      ReadyKeptByInsert(d, v);
    } else {
      TryInsertFails(d, v);
      ReadyAfterFail(d, v);
    }
  }

  lemma ReadyAfterFail(d: Dag, v: Vertex)
    requires WellFormed(d) && !Passes(d, v) && (v.hash in d.vertex ==> d.vertex[v.hash] == v)
    ensures Ready(d) == Ready(Learn(d, v)) && v.hash !in Ready(d)
  {
    hide Grounded, WellFormed, MapChild;
    GraphOf(d);
    forall w ensures Passes(d, w) <==> Passes(Learn(d, v), w) { assert Passes(d, w) <==> Passes(Learn(d, v), w); }
  }

  /** A vertex which waits for one just inserted was not ready: it lacked a parent. */
  lemma WaitingNotReady(d: Dag, v: Vertex)
    requires WellFormed(d) && Legal(d, Submit(v))
    ensures Passes(d, v) ==> Waiting(Next(d, Submit(v)), v.hash) !! Ready(d)
  {
    hide WellFormed, Legal, Waiting, Next;
    GraphOf(d);
    if Passes(d, v) {
      var d' := Next(d, Submit(v));
      forall h | h in Waiting(d', v.hash)
        ensures h !in Ready(d)
      {
        WaitingMember(d', v.hash, h);
        if h in Ready(d) {
          SubmitKeepsKnown(d, v, h);
        }
      }
    }
  }

  /** What an insertion leaves waiting for its vertex: the known vertices which have it as a parent
      and were not inserted before. */
  lemma WaitingChildren(d: Dag, v: Vertex)
    requires WellFormed(d) && Legal(d, Submit(v)) && Passes(d, v)
    ensures Waiting(Next(d, Submit(v)), v.hash) ==
            set w | w in d.vertex && v.hash in d.vertex[w].parents && w !in d.graph
  {
    hide WellFormed, Legal, Waiting, Next, Passes;
    var d' := Next(d, Submit(v));
    SubmittedIsKnown(d, v);
    NotOwnParent(d, v);
    SubmitCases(d, v);
    NextIsApply(d, Submit(v));
    forall w
      ensures w in Waiting(d', v.hash) <==> w in d.vertex && v.hash in d.vertex[w].parents && w !in d.graph
    {
      WaitingMember(d', v.hash, w);
    }
  }

  lemma NotOwnParent(d: Dag, v: Vertex)
    requires Grounded(d.graph) && Passes(d, v)
    ensures v.hash !in v.parents && v.hash !in d.graph
  {
  }

  lemma SubmittedIsKnown(d: Dag, v: Vertex)
    requires WellFormed(d) && Legal(d, Submit(v))
    ensures Grounded(d.graph) && (v.hash in d.vertex ==> d.vertex[v.hash] == v)
  {
  }

  lemma WaitingMember(d: Dag, p: VertexHash, w: VertexHash)
    requires WellFormed(d)
    ensures w in Waiting(d, p) <==> w in d.vertex && p in d.vertex[w].parents && w !in d.graph
  {
    hide GraphOk, KnownOk, FrontierOk, ChitsOk, StateOk;
  }

  /** A known vertex stays known as it is. */
  lemma SubmitKeepsKnown(d: Dag, v: Vertex, h: VertexHash)
    requires WellFormed(d) && Legal(d, Submit(v)) && h in d.vertex
    ensures h in Next(d, Submit(v)).vertex && Next(d, Submit(v)).vertex[h] == d.vertex[h]
  {
    hide WellFormed, Check, InsertState, MapChild, With;
  }

  lemma KnownIsLegal(d: Dag, h: VertexHash)
    requires WellFormed(d) && h in d.vertex
    ensures d.vertex[h].hash == h && Legal(d, Submit(d.vertex[h]))
  {
  }

  lemma ReadyNotInserted(d: Dag)
    requires WellFormed(d)
    ensures forall h :: h in Ready(d) ==> h !in d.graph
  {
    forall h | h in Ready(d) ensures h !in d.graph { NotInserted(d, h); }
  }

  /** Submitting a known vertex again adds nothing to the known vertices. */
  lemma RetryEffect(d: Dag, h: VertexHash)
    requires WellFormed(d) && h in d.vertex && d.vertex[h].hash == h && Legal(d, Submit(d.vertex[h]))
    ensures Next(d, Submit(d.vertex[h])).vertex == d.vertex
    ensures Passes(d, d.vertex[h]) ==> h !in d.graph && Next(d, Submit(d.vertex[h])).graph.Keys == d.graph.Keys + {h}
    ensures !Passes(d, d.vertex[h]) ==>
              Next(d, Submit(d.vertex[h])).graph == d.graph && Next(d, Submit(d.vertex[h])).pending == d.pending
  {
    hide WellFormed, Legal, Insert, Joins, Grounded, Passes;
    GraphOf(d);
    var v := d.vertex[h];
    assert d.vertex[h := v] == d.vertex;
    if Passes(d, v) {
      TryInsertPasses(d, v);
      NotYetIn(d.graph, v);
      InsertParts(d, v);
    } else {
      TryInsertFails(d, v);
    }
  }
}

/**
 Without votes the order of arrival does not matter: once nothing known is ready, the inserted
 graph is the largest parent-closed set of intrinsically valid vertices among those submitted
 (src/consensus/dag.rs: `check_vertex`, `try_insert`, `retry_pending`).
 */
module ArrivalOrder {
  import opened Wrappers
  import opened Vertices
  import opened Ancestry
  import opened DagTypes
  import opened Search
  import opened ActiveSets
  import opened Voting
  import opened Insertion
  import opened Dags
  import opened Steps
  import opened Runs
  import opened Arrivals

  // ----- intrinsic validity -----

  /** The constraints committed to by a vertex with parents `ps` or by its ancestors. */
  ghost function Ancestral(g: Graph, ps: seq<VertexHash>): set<Constraint>
    requires Grounded(g) && AllInserted(g, ps)
  {
    PC(ps) + set p, c | p in ps && c in AC(g, p) :: c
  }

  /** A vertex is one higher than its highest parent, its parents form an antichain, and its
      ancestry commits to one order of each pair at most. */
  ghost predicate Fit(g: Graph, v: Vertex)
    requires Grounded(g) && AllInserted(g, v.parents)
  {
    HeightIsNext(g, v) && Antichain(g, v.parents) && !HasConflict(Ancestral(g, v.parents))
  }

  /** Two graphs hold the same vertex wherever both hold one. */
  ghost predicate Agree(g: Graph, g': Graph) {
    forall h :: h in g && h in g' ==> g[h] == g'[h]
  }

  lemma {:induction false} AncAgree(g: Graph, g': Graph, h: VertexHash)
    requires Grounded(g) && Grounded(g') && Agree(g, g') && h in g && h in g'
    ensures Anc(g, h) == Anc(g', h)
    decreases g[h].height
  {
    assert ParentsBelow(g, g[h]) && ParentsBelow(g', g'[h]);
    forall p | p in g[h].parents
      ensures Anc(g, p) == Anc(g', p)
    {
      AncAgree(g, g', p);
    }
  }

  lemma ACWithin(g: Graph, g': Graph, h: VertexHash, c: Constraint)
    requires Grounded(g) && Grounded(g') && Agree(g, g') && h in g && h in g' && c in AC(g, h)
    ensures c in AC(g', h)
  {
    AncAgree(g, g', h);
    var x :| x in AncEq(g, h) && c in PC(g[x].parents);
    ACMember(g', h, x, c);
  }

  lemma AncestralAgree(g: Graph, g': Graph, ps: seq<VertexHash>)
    requires Grounded(g) && Grounded(g') && Agree(g, g') && AllInserted(g, ps) && AllInserted(g', ps)
    ensures Ancestral(g, ps) == Ancestral(g', ps)
  {
    forall p | p in ps
      ensures AC(g, p) == AC(g', p)
    {
      forall c | c in AC(g, p) ensures c in AC(g', p) { ACWithin(g, g', p, c); }
      forall c | c in AC(g', p) ensures c in AC(g, p) { ACWithin(g', g, p, c); }
    }
  }

  /** Validity does not depend on the rest of the graph. */
  lemma FitAgree(g: Graph, g': Graph, v: Vertex)
    requires Grounded(g) && Grounded(g') && Agree(g, g') && AllInserted(g, v.parents) && AllInserted(g', v.parents)
    requires Fit(g, v)
    ensures Fit(g', v)
  {
    hide Ancestral, HasConflict, Anc, Grounded;
    AncestralAgree(g, g', v.parents);
    forall q | q in v.parents ensures Anc(g, q) == Anc(g', q) { AncAgree(g, g', q); }
    var p :| p in v.parents && p in g && v.height == 1 + g[p].height;
    assert g'[p] == g[p];
  }

  // ----- states no vote has touched -----

  /** Nothing but genesis is decided. */
  ghost predicate Untouched(d: Dag) {
    forall c :: Dec(d.state, c) == if c == Unity(d.cfg.genesis) then Some(true) else None
  }

  lemma UnknownUndecided(st: State, c: Constraint)
    requires c.Key() !in st
    ensures Undecided(st, c)
  {
  }

  lemma PairUntouched(g: Graph, st: State, v: Vertex, c: Constraint)
    requires Grounded(g) && StateOk(g, st) && Joins(g, v) && (forall e :: !Rejected(st, e))
    requires c.Key() in st || c.Key() in KeysOf(PC(v.parents))
    ensures Dec(InsertState(g, st, v), c) == Dec(st, c)
  {
    hide Grounded, StateOk, InsertState, PC, Joins;
    if c.Key() in st {
      InsertKeeps(g, st, v, c);
    } else {
      var e := WithKey(PC(v.parents), c.Key());
      InsertPair(g, st, v, e, c);
      UnknownUndecided(st, c);
    }
  }

  lemma UnityUntouched(g: Graph, st: State, v: Vertex)
    requires Grounded(g) && StateOk(g, st) && Joins(g, v) && (forall e :: !Rejected(st, e))
    ensures Dec(InsertState(g, st, v), Unity(v.hash)) == Dec(st, Unity(v.hash))
  {
    hide Grounded, StateOk, InsertState, PC, Joins, Dec;
    InsertUnity(g, st, v);
    UnknownUndecided(st, Unity(v.hash));
    forall p | p in PC(v.parents)
      ensures !Rejected(InsertState(g, st, v), p)
    {
      assert p.Key() in KeysOf(PC(v.parents));
      PairUntouched(g, st, v, p);
      assert !Rejected(st, p);
    }
  }

  lemma InsertUntouched(g: Graph, st: State, v: Vertex, c: Constraint)
    requires Grounded(g) && StateOk(g, st) && Joins(g, v) && (forall e :: !Rejected(st, e))
    ensures Dec(InsertState(g, st, v), c) == Dec(st, c)
  {
    hide Grounded, StateOk;
    if c.Key() in st || c.Key() in KeysOf(PC(v.parents)) {
      PairUntouched(g, st, v, c);
    } else if c.Key() == Unity(v.hash).Key() {
      KeyIdentifiesConflictSet(Unity(v.hash), c);
      UnityUntouched(g, st, v);
    } else {
      ParentListOneOrder(v.parents);
    }
  }

  lemma SubmitUntouched(d: Dag, v: Vertex)
    requires WellFormed(d) && Untouched(d)
    ensures Untouched(Apply(d, Submit(v)))
  {
    hide WellFormed, Apply, InsertState, Grounded, StateOk, Joins, Passes, Dec;
    GraphOf(d);
    SubmitCases(d, v);
    if Passes(d, v) {
      InsertParts(d, v);
      forall c
        ensures Dec(InsertState(d.graph, d.state, v), c) == Dec(d.state, c)
      {
        InsertUntouched(d.graph, d.state, v, c);
      }
      assert Insert(d, v).cfg == d.cfg;
    }
  }

  // ----- the checks without votes -----

  lemma OnlyGenesisDecided(d: Dag, ps: seq<VertexHash>)
    requires WellFormed(d) && Untouched(d) && AllInserted(d.graph, ps)
    ensures DecidedIn(d.graph, d.state) == {d.cfg.genesis}
    ensures !HitsRejected(d.state, OpenAll(d.graph, DecidedIn(d.graph, d.state), ps))
    ensures AncestorsClosed(d.graph, {d.cfg.genesis}, ps)
  {
    hide StateOk, KnownOk, ChildrenOk, FrontierOk, ChitsOk, OpenAll;
    GenesisRoot(d);
  }

  lemma GenesisRoot(d: Dag)
    requires WellFormed(d)
    ensures d.cfg.genesis in d.graph && d.graph[d.cfg.genesis].parents == [] && Anc(d.graph, d.cfg.genesis) == {}
  {
    hide StateOk, KnownOk, ChildrenOk, FrontierOk, ChitsOk, Grounded, Antichain, HeightIsNext, Accepted;
    assert VertexOk(d.cfg.genesis, d.graph, d.cfg.genesis);
  }

  /** Without votes the search returns everything the ancestry commits to, genesis apart. */
  lemma OpenIsAncestral(d: Dag, ps: seq<VertexHash>, c: Constraint)
    requires WellFormed(d) && Untouched(d) && AllInserted(d.graph, ps) && c != Unity(d.cfg.genesis)
    ensures c in OpenConstraints(d.graph, d.state, ps) <==> c in Ancestral(d.graph, ps)
  {
    hide WellFormed, Active, AncestorsClosed, OpenAll, Dec;
    var g, D := d.graph, DecidedIn(d.graph, d.state);
    GraphOf(d);
    RootedGraph(d);
    OnlyGenesisDecided(d, ps);
    GenesisRoot(d);
    if c in OpenConstraints(g, d.state, ps) && c !in PC(ps) {
      var a :| a in Active(g, D, ps) && a in g && c in PC(g[a].parents);
      ActiveExact(g, D, ps, a);
      var p :| p in ps && a in AncEq(g, p);
      ACMember(g, p, a, c);
    }
    if c in Ancestral(g, ps) && c !in PC(ps) {
      var p :| p in ps && c in AC(g, p);
      var a :| a in AncEq(g, p) && c in PC(g[a].parents);
      ActiveExact(g, D, ps, a);
    }
  }

  /** Without votes the checks are: sane, new, parents inserted, intrinsically valid. */
  lemma PassesIsFit(d: Dag, v: Vertex)
    requires WellFormed(d) && Untouched(d)
    ensures Grounded(d.graph)
    ensures Passes(d, v) <==>
            SanityChecks(v).Ok? && v.hash !in d.graph && AllInserted(d.graph, v.parents) && Fit(d.graph, v)
  {
    hide WellFormed, Untouched, HitsRejected, OpenConstraints, Ancestral, Antichain, HeightIsNext, Grounded, OpenAll,
         DecidedIn;
    GraphOf(d);
    if AllInserted(d.graph, v.parents) {
      OnlyGenesisDecided(d, v.parents);
      forall c | c != Unity(d.cfg.genesis)
        ensures c in OpenConstraints(d.graph, d.state, v.parents) <==> c in Ancestral(d.graph, v.parents)
      {
        OpenIsAncestral(d, v.parents, c);
      }
    }
  }

  // ----- every submitted vertex is known, or invalid for good -----

  ghost predicate Unfit(g: Graph, v: Vertex)
    requires Grounded(g)
  {
    SanityChecks(v).Err? || (AllInserted(g, v.parents) && !Fit(g, v))
  }

  ghost predicate Handled(d: Dag, v: Vertex)
    requires Grounded(d.graph)
  {
    (v.hash in d.vertex && d.vertex[v.hash] == v) || Unfit(d.graph, v)
  }

  lemma HandledStays(d: Dag, w: Vertex, v: Vertex)
    requires WellFormed(d) && Legal(d, Submit(w)) && Handled(d, v)
    ensures Handled(Next(d, Submit(w)), v)
  {
    hide WellFormed, Legal, Apply;
    GraphOf(d);
    GraphOf(Next(d, Submit(w)));
    SubmitGrows(d, w);
    if Unfit(d.graph, v) {
      if AllInserted(d.graph, v.parents) && Fit(Next(d, Submit(w)).graph, v) {
        FitAgree(Next(d, Submit(w)).graph, d.graph, v);
      }
    } else {
      SubmitKeepsKnown(d, w, v.hash);
    }
  }

  lemma KnownInGraph(d: Dag, v: Vertex)
    requires WellFormed(d) && Legal(d, Submit(v)) && v.hash in d.graph
    ensures v.hash in d.vertex && d.vertex[v.hash] == v
  {
  }

  lemma SubmitHandles(d: Dag, v: Vertex)
    requires WellFormed(d) && Legal(d, Submit(v)) && Untouched(d)
    ensures Handled(Next(d, Submit(v)), v)
  {
    hide WellFormed, Legal, Passes, Untouched;
    GraphOf(d);
    PassesIsFit(d, v);
    if Passes(d, v) {
      TryInsertPasses(d, v);
      InsertParts(d, v);
    } else {
      TryInsertFails(d, v);
      if v.hash in d.graph {
        KnownInGraph(d, v);
      } else if !MustWait(d, v) {
      }
    }
  }

  // ----- runs without votes -----

  ghost predicate VoteFree(evs: seq<Event>) {
    forall i :: 0 <= i < |evs| ==> evs[i].Submit?
  }

  ghost function Submitted(evs: seq<Event>): set<Vertex> {
    if evs == [] then {}
    else Submitted(evs[..|evs| - 1]) + if evs[|evs| - 1].Submit? then {evs[|evs| - 1].v} else {}
  }

  lemma SubmittedOneMore(evs: seq<Event>, v: Vertex)
    ensures Submitted(evs + [Submit(v)]) == Submitted(evs) + {v}
    ensures VoteFree(evs) ==> VoteFree(evs + [Submit(v)])
  {
    assert (evs + [Submit(v)])[..|evs|] == evs;
  }

  /** Only submitted vertices are known, genesis apart. */
  lemma {:induction false} KnownWasSubmitted(cfg: Config, v0: Vertex, evs: seq<Event>, h: VertexHash)
    requires cfg.Valid() && IsGenesis(cfg, v0) && IsRun(cfg, v0, evs) && h in Run(cfg, v0, evs).vertex
    ensures var v := Run(cfg, v0, evs).vertex[h]; v == v0 || v in Submitted(evs)
    decreases |evs|
  {
    hide WellFormed, Legal, Next, First, Run, IsRun;
    if evs == [] {
      RunOfNothing(cfg, v0);
    } else {
      var before, e := evs[..|evs| - 1], evs[|evs| - 1];
      RunStep(cfg, v0, evs);
      NextIsApply(Run(cfg, v0, before), e);
      if h in Run(cfg, v0, before).vertex { KnownWasSubmitted(cfg, v0, before, h); }
    }
  }

  lemma NothingReadyFirst(cfg: Config, v0: Vertex)
    requires cfg.Valid() && IsGenesis(cfg, v0)
    ensures Ready(First(cfg, v0)) == {}
  {
  }

  lemma {:induction false} UntouchedRun(cfg: Config, v0: Vertex, evs: seq<Event>)
    requires cfg.Valid() && IsGenesis(cfg, v0) && IsRun(cfg, v0, evs) && VoteFree(evs)
    ensures Untouched(Run(cfg, v0, evs))
    decreases |evs|
  {
    hide WellFormed, Legal, Next, Run, IsRun;
    if evs == [] {
      forall c { FirstState(cfg, v0, c); }
      RunOfNothing(cfg, v0);
    } else {
      RunStep(cfg, v0, evs);
      UntouchedRun(cfg, v0, evs[..|evs| - 1]);
      var d, e := Run(cfg, v0, evs[..|evs| - 1]), evs[|evs| - 1];
      SubmitUntouched(d, e.v);
      NextIsApply(d, e);
    }
  }

  lemma GroundedRun(d: Dag)
    requires WellFormed(d)
    ensures Grounded(d.graph)
  {
  }

  lemma {:induction false} SubmittedHandled(cfg: Config, v0: Vertex, evs: seq<Event>, v: Vertex)
    requires cfg.Valid() && IsGenesis(cfg, v0) && IsRun(cfg, v0, evs) && VoteFree(evs) && v in Submitted(evs)
    ensures Handled(Run(cfg, v0, evs), v)
    decreases |evs|
  {
    hide WellFormed, Legal, Next, First, Run, IsRun, Untouched, Handled, Grounded;
    GroundedRun(Run(cfg, v0, evs));
    var before, e := evs[..|evs| - 1], evs[|evs| - 1];
    RunStep(cfg, v0, evs);
    UntouchedRun(cfg, v0, before);
    GroundedRun(Run(cfg, v0, before));
    if v == e.v {
      SubmitHandles(Run(cfg, v0, before), v);
    } else {
      SubmittedHandled(cfg, v0, before, v);
      HandledStays(Run(cfg, v0, before), e.v, v);
    }
  }

  // ----- the largest valid graph -----

  /** A parent-closed set of intrinsically valid vertices drawn from `S`, above genesis. */
  ghost predicate Admissible(cfg: Config, v0: Vertex, S: set<Vertex>, g: Graph) {
    && Grounded(g) && cfg.genesis in g && g[cfg.genesis] == v0
    && forall h :: h in g && h != cfg.genesis ==> Drawn(S, g, h)
  }

  ghost predicate Drawn(S: set<Vertex>, g: Graph, h: VertexHash)
    requires Grounded(g) && h in g
  {
    g[h] in S && SanityChecks(g[h]).Ok? && AllInserted(g, g[h].parents) && Fit(g, g[h])
  }

  lemma DrawnStays(S: set<Vertex>, S': set<Vertex>, g: Graph, g': Graph, h: VertexHash)
    requires Grounded(g) && Grounded(g') && Extends(g, g') && h in g && S <= S' && Drawn(S, g, h)
    ensures Drawn(S', g', h)
  {
    FitAgree(g, g', g[h]);
  }

  lemma AdmissibleInsert(cfg: Config, v0: Vertex, S: set<Vertex>, S': set<Vertex>, g: Graph, v: Vertex)
    requires Admissible(cfg, v0, S, g) && S <= S' && Joins(g, v) && v in S'
    requires SanityChecks(v).Ok? && AllInserted(g, v.parents) && Fit(g, v)
    ensures Admissible(cfg, v0, S', With(g, v))
  {
    GrownGrounded(g, v);
    GrownGrounded(g, v);
    FitAgree(g, With(g, v), v);
    forall h | h in g && h != cfg.genesis
      ensures Drawn(S', With(g, v), h)
    {
      DrawnStays(S, S', g, With(g, v), h);
    }
  }

  /** Everything inserted is valid. */
  lemma {:induction false} InsertedAdmissible(cfg: Config, v0: Vertex, evs: seq<Event>)
    requires cfg.Valid() && IsGenesis(cfg, v0) && IsRun(cfg, v0, evs) && VoteFree(evs)
    ensures Admissible(cfg, v0, Submitted(evs), Run(cfg, v0, evs).graph)
    decreases |evs|
  {
    hide WellFormed, Legal, Next, First, Run, IsRun, Untouched, Passes, Fit, Insert, Joins, With;
    if evs == [] {
      RunOfNothing(cfg, v0);
    } else {
      var before, v := evs[..|evs| - 1], evs[|evs| - 1].v;
      RunStep(cfg, v0, evs);
      InsertedAdmissible(cfg, v0, before);
      UntouchedRun(cfg, v0, before);
      var d := Run(cfg, v0, before);
      PassesIsFit(d, v);
      NextIsApply(d, Submit(v));
      SubmitCases(d, v);
      if Passes(d, v) {
        InsertParts(d, v);
        AdmissibleInsert(cfg, v0, Submitted(before), Submitted(evs), d.graph, v);
      } else {
      }
    }
  }

  /** The hash of a vertex determines it. */
  ghost predicate CollisionFree(S: set<Vertex>) {
    forall v, w :: v in S && w in S && v.hash == w.hash ==> v == w
  }

  lemma HandledReady(d: Dag, v: Vertex)
    requires WellFormed(d) && Untouched(d) && Handled(d, v)
    requires SanityChecks(v).Ok? && AllInserted(d.graph, v.parents) && Fit(d.graph, v)
    ensures v.hash in d.graph || v.hash in Ready(d)
  {
    hide WellFormed, Untouched, Fit, Passes;
    PassesIsFit(d, v);
  }

  /** Whatever belongs to a valid graph has been inserted. */
  lemma {:induction false} ValidIsInserted(cfg: Config, v0: Vertex, evs: seq<Event>, g: Graph, h: VertexHash)
    requires cfg.Valid() && IsGenesis(cfg, v0) && IsRun(cfg, v0, evs) && VoteFree(evs)
    requires Admissible(cfg, v0, Submitted(evs), g) && Agree(g, Run(cfg, v0, evs).graph)
    requires Ready(Run(cfg, v0, evs)) == {} && h in g
    ensures h in Run(cfg, v0, evs).graph
    decreases g[h].height
  {
    hide WellFormed, Legal, Run, IsRun, Untouched, Handled, Ready, Fit;
    var d := Run(cfg, v0, evs);
    GroundedRun(d);
    GenesisRoot(d);
    if h != cfg.genesis {
      assert Drawn(Submitted(evs), g, h) && ParentsBelow(g, g[h]);
      forall p | p in g[h].parents
        ensures p in d.graph
      {
        ValidIsInserted(cfg, v0, evs, g, p);
      }
      FitAgree(g, d.graph, g[h]);
      UntouchedRun(cfg, v0, evs);
      SubmittedHandled(cfg, v0, evs, g[h]);
      HandledReady(d, g[h]);
    }
  }

  /** Once nothing is ready, the inserted graph is the largest valid graph drawn from the
      submitted vertices. */
  lemma LargestValidGraph(cfg: Config, v0: Vertex, evs: seq<Event>, g: Graph)
    requires cfg.Valid() && IsGenesis(cfg, v0) && IsRun(cfg, v0, evs) && VoteFree(evs)
    requires CollisionFree(Submitted(evs) + {v0}) && Ready(Run(cfg, v0, evs)) == {}
    ensures Admissible(cfg, v0, Submitted(evs), Run(cfg, v0, evs).graph)
    ensures Admissible(cfg, v0, Submitted(evs), g) ==> Extends(g, Run(cfg, v0, evs).graph)
  {
    hide WellFormed, Legal, Run, IsRun, Ready;
    InsertedAdmissible(cfg, v0, evs);
    if Admissible(cfg, v0, Submitted(evs), g) {
      forall h | h in g ensures h in Run(cfg, v0, evs).graph { ValidIsInserted(cfg, v0, evs, g, h); }
    }
  }

  lemma FrontierFromGraph(d: Dag, d': Dag)
    requires WellFormed(d) && WellFormed(d') && d.graph == d'.graph
    ensures d.frontier == d'.frontier
  {
    SameMap(d.frontier, d'.frontier);
  }

  /** The same vertices submitted in any two orders lead to the same graph and frontier. */
  lemma ArrivalOrderIrrelevant(cfg: Config, v0: Vertex, evs: seq<Event>, evs': seq<Event>)
    requires cfg.Valid() && IsGenesis(cfg, v0)
    requires IsRun(cfg, v0, evs) && VoteFree(evs) && IsRun(cfg, v0, evs') && VoteFree(evs')
    requires Submitted(evs) == Submitted(evs') && CollisionFree(Submitted(evs) + {v0})
    requires Ready(Run(cfg, v0, evs)) == {} && Ready(Run(cfg, v0, evs')) == {}
    ensures Run(cfg, v0, evs).graph == Run(cfg, v0, evs').graph
    ensures Run(cfg, v0, evs).frontier == Run(cfg, v0, evs').frontier
  {
    hide WellFormed, Legal, Run, IsRun, Ready, Admissible;
    var d, d' := Run(cfg, v0, evs), Run(cfg, v0, evs');
    LargestValidGraph(cfg, v0, evs, d'.graph);
    LargestValidGraph(cfg, v0, evs', d.graph);
    SameMap(d.graph, d'.graph);
    FrontierFromGraph(d, d');
  }
}

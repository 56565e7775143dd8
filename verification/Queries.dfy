/** Querying the preference of a vertex (src/consensus/dag.rs: `query`). */
module Queries {
  import opened Wrappers
  import opened Vertices
  import opened Ancestry
  import opened DagTypes
  import opened Search
  import opened ActiveSets
  import opened Dags
  import opened Steps
  import opened Runs
  import opened Finality

  /** How one constraint bears on a query: whether it is preferred, and whether that is final. */
  function Stance(st: State, c: Constraint): (bool, bool)
    requires c.Key() in st
  {
    match Dec(st, c)
    case Some(true) => (true, true)
    case Some(false) => (false, true)
    case None => (st[c.Key()].preferred == c, false)
  }

  ghost predicate Searchable(d: Dag) {
    && Grounded(d.graph)
    && (forall h :: h in d.graph && Undecided(d.state, Unity(h)) ==>
          d.graph[h].parents != [] && AllInserted(d.graph, d.graph[h].parents))
    && (forall c :: c in Reg(d.graph) ==> c.Key() in d.state)
  }

  lemma WellFormedSearchable(d: Dag)
    requires WellFormed(d)
    ensures Searchable(d)
  {
    forall h | h in d.graph && Undecided(d.state, Unity(h))
      ensures d.graph[h].parents != [] && AllInserted(d.graph, d.graph[h].parents)
    {
      assert VertexOk(d.cfg.genesis, d.graph, h);
    }
  }

  lemma SearchedRegistered(d: Dag, h: VertexHash)
    requires Searchable(d) && h in d.graph && Undecided(d.state, Unity(h))
    ensures ActiveConstraints(d.vertex, d.graph, d.state, d.graph[h]).Ok? ==>
              forall c :: c in ActiveConstraints(d.vertex, d.graph, d.state, d.graph[h]).value ==> c.Key() in d.state
  {
    forall c | c in PC(d.graph[h].parents) ensures c in Reg(d.graph) { RegMember(d.graph, h, c); }
    var r := ActiveAncestors(d.vertex, d.graph, d.state, d.graph[h].parents);
    if r.Ok? { CommittedRegistered(d.graph, r.value); }
  }

  /** Strong preference of a vertex, and whether it is final. */
  function Query(d: Dag, h: VertexHash): Result<(bool, bool), Error>
    requires Searchable(d)
  {
    if h in d.graph then
      match Dec(d.state, Unity(h))
      case Some(decision) => Ok((decision, true))
      case None =>
        SearchedRegistered(d, h);
        match ActiveConstraints(d.vertex, d.graph, d.state, d.graph[h])
        case Err(e) => Err(e)
        case Ok(cs) => Ok((forall c :: c in cs ==> Stance(d.state, c).0, false))
    else if h in d.vertex then Err(WaitingOnInsert)
    else Err(NotFound)
  }

  /** The search sets of an inserted vertex and of one reached from it through undecided ones. */
  lemma OpenConstraintsInherited(d: Dag, h: VertexHash, w: VertexHash)
    requires WellFormed(d) && h in d.graph && AllInserted(d.graph, d.graph[h].parents)
    requires w in OpenAll(d.graph, DecidedIn(d.graph, d.state), d.graph[h].parents) && Undecided(d.state, Unity(w))
    ensures w in d.graph && d.graph[w].parents != [] && AllInserted(d.graph, d.graph[w].parents)
    ensures OpenAll(d.graph, DecidedIn(d.graph, d.state), d.graph[w].parents) <=
            OpenAll(d.graph, DecidedIn(d.graph, d.state), d.graph[h].parents)
    ensures OpenConstraints(d.graph, d.state, d.graph[w].parents) <=
            OpenConstraints(d.graph, d.state, d.graph[h].parents)
  {
    hide WellFormed, Active, OpenAll, Dec, Searchable;
    var g, D, ps := d.graph, DecidedIn(d.graph, d.state), d.graph[h].parents;
    GraphOf(d);
    RootedGraph(d);
    assert Grounded(g) && w in OpenAll(g, D, ps);
    UndecidedNotRoot(d, w);
    ActiveInherited(g, D, ps, w);
    ActiveComplete(g, D, ps, w);
  }

  lemma UndecidedNotRoot(d: Dag, w: VertexHash)
    requires WellFormed(d) && w in d.graph && Undecided(d.state, Unity(w))
    ensures w != d.cfg.genesis && d.graph[w].parents != [] && AllInserted(d.graph, d.graph[w].parents)
    ensures w !in DecidedIn(d.graph, d.state)
  {
    assert VertexOk(d.cfg.genesis, d.graph, w);
  }

  /** Strong preference passes down: if an undecided vertex is strongly preferred, so is every
      undecided vertex reached from it through undecided ones. */
  lemma StrongPreferenceInherited(d: Dag, h: VertexHash, w: VertexHash)
    requires WellFormed(d) && Searchable(d) && h in d.graph && Query(d, h) == Ok((true, false))
    requires AllInserted(d.graph, d.graph[h].parents)
    requires w in OpenAll(d.graph, DecidedIn(d.graph, d.state), d.graph[h].parents) && Undecided(d.state, Unity(w))
    ensures Query(d, w) == Ok((true, false))
  {
    hide WellFormed, Searchable, OpenAll, DecidedIn, OpenConstraints, ActiveConstraints;
    UndecidedNotRoot(d, h);
    OpenConstraintsInherited(d, h, w);
    UndecidedNotRoot(d, w);
    SearchForMeaning(d, h);
    SearchForMeaning(d, w);
    SearchForUnfolds(d, h);
    SearchForUnfolds(d, w);
    SearchedRegistered(d, h);
    SearchedRegistered(d, w);
  }

  lemma SearchForUnfolds(d: Dag, h: VertexHash)
    requires WellFormed(d) && Searchable(d) && h in d.graph && h != d.cfg.genesis && Undecided(d.state, Unity(h))
    ensures SearchFor(d, h) == ActiveConstraints(d.vertex, d.graph, d.state, d.graph[h])
  {
    hide WellFormed, Searchable, ActiveConstraints;
  }

  /** The outcome of a query: an inserted vertex reports its decision if there is one; otherwise the
      query fails exactly if the search meets a rejected vertex, and reports as strong preference
      that every constraint the search returns is the preferred one of its pair. */
  lemma QueryOutcome(d: Dag, h: VertexHash)
    requires WellFormed(d) && Searchable(d)
    ensures Query(d, h) == Err(NotFound) <==> h !in d.vertex
    ensures Query(d, h) == Err(WaitingOnInsert) <==> h in d.vertex && h !in d.graph
    ensures h in d.graph ==> (Query(d, h) == Ok((true, true)) <==> Accepted(d.state, Unity(h)))
    ensures h in d.graph ==> (Query(d, h) == Ok((false, true)) <==> Rejected(d.state, Unity(h)))
    ensures h in d.graph ==>
              (Query(d, h).Err? <==> Undecided(d.state, Unity(h)) && h != d.cfg.genesis && SearchFor(d, h).Err?)
    ensures h in d.graph && Query(d, h).Err? ==> Query(d, h) == Err(RejectedAncestor)
    ensures h in d.graph && Undecided(d.state, Unity(h)) && h != d.cfg.genesis && SearchFor(d, h).Ok? ==>
              var preferred := forall c :: c in SearchFor(d, h).value ==>
                                             c.Key() in d.state && d.state[c.Key()].preferred == c;
              Query(d, h) == Ok((preferred, false))
  {
    hide WellFormed, Searchable, ActiveConstraints, SearchFor;
    KnownInserted(d, h);
    if h in d.graph && Undecided(d.state, Unity(h)) {
      UndecidedNotRoot(d, h);
      SearchForUnfolds(d, h);
      SearchForMeaning(d, h);
      SearchedRegistered(d, h);
    }
  }

  lemma KnownInserted(d: Dag, h: VertexHash)
    requires WellFormed(d)
    ensures h in d.graph ==> h in d.vertex
  {
  }

  /** In a guarded run every query of an inserted vertex succeeds. */
  lemma GuardedQueriesSucceed(cfg: Config, v0: Vertex, evs: seq<Event>, h: VertexHash)
    requires cfg.Valid() && IsGenesis(cfg, v0) && IsRun(cfg, v0, evs) && GuardedRun(cfg, v0, evs)
    requires h in Run(cfg, v0, evs).graph
    ensures Searchable(Run(cfg, v0, evs)) && Query(Run(cfg, v0, evs), h).Ok?
  {
    hide WellFormed, Searchable, Run, IsRun, GuardedRun, Consistent, KeepsDecisions, Query, SearchFor;
    WellFormedSearchable(Run(cfg, v0, evs));
    GuardedRunFinality(cfg, v0, evs, |evs|);
    QueryOutcome(Run(cfg, v0, evs), h);
  }
}

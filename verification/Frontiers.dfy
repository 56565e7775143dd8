/** The vertices offered as parents (src/consensus/dag.rs: `get_frontier`). */
module Frontiers {
  import opened Vertices
  import opened Ancestry
  import opened DagTypes
  import opened Search
  import opened Dags
  import opened Runs
  import opened BallotOrder
  import opened ConflictFree
  import opened Queries
  import opened Preference
  import opened ArrivalOrder
  import opened Scenarios

  /** The childless inserted vertices which are strongly preferred. */
  function Frontier(d: Dag): set<VertexHash>
    requires Searchable(d)
  {
    set h | h in d.frontier && Query(d, h).Ok? && Query(d, h).value.0
  }

  /** A childless inserted vertex is in the frontier exactly if it is accepted, or undecided with a
      search which meets no rejection and returns preferred constraints only. */
  lemma FrontierMembers(d: Dag, h: VertexHash)
    requires WellFormed(d) && Searchable(d)
    ensures h in Frontier(d) <==>
            && h in d.graph && !HasInsertedChild(d.graph, h)
            && (Accepted(d.state, Unity(h)) ||
                (Undecided(d.state, Unity(h)) && h != d.cfg.genesis && SearchFor(d, h).Ok? &&
                 forall c :: c in SearchFor(d, h).value ==> c.Key() in d.state && d.state[c.Key()].preferred == c))
  {
    hide WellFormed, Searchable, HasInsertedChild, ActiveConstraints, SearchFor;
    LeafMembers(d, h);
    if h in d.graph {
      DecidedCases(d.state, Unity(h));
      if Undecided(d.state, Unity(h)) {
        UndecidedNotRoot(d, h);
        SearchForUnfolds(d, h);
        SearchedRegistered(d, h);
        if SearchFor(d, h).Ok? {
          forall c | c in SearchFor(d, h).value ensures Undecided(d.state, c) { SearchedInGraph(d, h, c); }
        }
      }
    }
  }

  lemma LeafMembers(d: Dag, h: VertexHash)
    requires WellFormed(d)
    ensures h in d.frontier <==> h in d.graph && !HasInsertedChild(d.graph, h)
  {
    hide GraphOk, KnownOk, ChildrenOk, ChitsOk, HasInsertedChild;
  }

  /** Without opposite orders it is all childless inserted vertices, whatever their heights. */
  lemma ConflictFreeFrontier(cfg: Config, v0: Vertex, evs: seq<Event>)
    requires cfg.Valid() && IsGenesis(cfg, v0) && IsRun(cfg, v0, evs) && NoClash(Run(cfg, v0, evs).graph)
    ensures var d := Run(cfg, v0, evs);
            Searchable(d) && forall h :: h in Frontier(d) <==> h in d.graph && !HasInsertedChild(d.graph, h)
  {
    hide WellFormed, Run, IsRun, Searchable, NoClash, Query, HasInsertedChild;
    var d := Run(cfg, v0, evs);
    WellFormedSearchable(d);
    forall h
      ensures h in Frontier(d) <==> h in d.graph && !HasInsertedChild(d.graph, h)
    {
      LeafMembers(d, h);
      if h in d.graph { ConflictFreePreference(cfg, v0, evs, h); }
    }
  }

  /** The inserted vertices higher than `h`. */
  ghost function Above(g: Graph, h: VertexHash): set<VertexHash>
    requires h in g
  {
    set w | w in g && g[w].height > g[h].height
  }

  /** Among the vertices at least as high as `h` there is a childless one. */
  lemma {:induction false} LeafAbove(g: Graph, h: VertexHash) returns (z: VertexHash)
    requires Grounded(g) && h in g
    ensures z in g && !HasInsertedChild(g, z) && g[z].height >= g[h].height
    decreases Above(g, h)
  {
    if w :| w in g && h in g[w].parents {
      assert ParentsBelow(g, g[w]);
      assert w in Above(g, h) && w !in Above(g, w) && Above(g, w) <= Above(g, h);
      z := LeafAbove(g, w);
    } else {
      z := h;
    }
  }

  ghost predicate SameHeight(g: Graph, S: set<VertexHash>) {
    forall a, b :: a in S && b in S && a in g && b in g ==> g[a].height == g[b].height
  }

  /** In such a run the frontier has one height exactly when every inserted vertex lower than
      another has an inserted child. */
  lemma OneHeight(cfg: Config, v0: Vertex, evs: seq<Event>)
    requires cfg.Valid() && IsGenesis(cfg, v0) && IsRun(cfg, v0, evs) && NoClash(Run(cfg, v0, evs).graph)
    ensures var d := Run(cfg, v0, evs);
            && Searchable(d)
            && (SameHeight(d.graph, Frontier(d)) <==>
                forall h :: h in d.graph && Above(d.graph, h) != {} ==> HasInsertedChild(d.graph, h))
  {
    hide WellFormed, Run, IsRun, Searchable, NoClash, Frontier, HasInsertedChild, Grounded;
    var d := Run(cfg, v0, evs);
    GroundedRun(d);
    ConflictFreeFrontier(cfg, v0, evs);
    forall h | SameHeight(d.graph, Frontier(d)) && h in d.graph && Above(d.graph, h) != {}
      ensures HasInsertedChild(d.graph, h)
    {
      var w :| w in Above(d.graph, h);
      var z := LeafAbove(d.graph, w);
    }
    if !SameHeight(d.graph, Frontier(d)) {
      var a, b :| a in Frontier(d) && b in Frontier(d) && a in d.graph && b in d.graph &&
                  d.graph[a].height < d.graph[b].height;
      assert b in Above(d.graph, a);
    }
  }

  // ----- two heights at once -----

  const CFG := Config(0, 2, 2)
  const GENESIS := Vertex(0, VERSION, 0, [])
  const SHORT := Vertex(1, VERSION, 1, [0])
  const BASE := Vertex(2, VERSION, 1, [0])
  const TALL := Vertex(3, VERSION, 2, [2])

  ghost function All(): Graph {
    map[0 := GENESIS, 1 := SHORT, 2 := BASE, 3 := TALL]
  }

  lemma AllGrounded()
    ensures Grounded(All())
  {
  }

  lemma AllPeaceful()
    ensures NoClash(All()) && forall c :: c in Reg(All()) ==> c.IsUnity()
  {
    hide PC;
  }

  lemma OneIsGood(v: Vertex)
    requires v == SHORT || v == BASE || v == TALL
    ensures Good(All(), v)
  {
    hide Grounded, PC, Anc, AC, Reg, NoClash;
    AllGrounded();
    AllPeaceful();
    AncOne(All(), 2, 0);
    assert v.parents[0] in v.parents;
    forall c | c in Ancestral(All(), v.parents)
      ensures c.IsUnity()
    {
      if c !in PC(v.parents) {
        var p :| p in v.parents && c in AC(All(), p);
        ACRegistered(All(), p);
      }
    }
  }

  const SUBMISSIONS := [Submit(SHORT), Submit(BASE), Submit(TALL)]

  lemma AllInsertedRun()
    ensures At(CFG, GENESIS, SUBMISSIONS, All(), map[])
  {
    hide At, Good;
    OneIsGood(SHORT);
    OneIsGood(BASE);
    OneIsGood(TALL);
    Start(CFG, GENESIS);
    var g: Graph := map[0 := GENESIS];
    Grow(CFG, GENESIS, [], g, map[], All(), SHORT);
    Grow(CFG, GENESIS, [] + [Submit(SHORT)], g[1 := SHORT], map[], All(), BASE);
    Grow(CFG, GENESIS, [] + [Submit(SHORT)] + [Submit(BASE)], g[1 := SHORT][2 := BASE], map[], All(), TALL);
    assert g[1 := SHORT][2 := BASE][3 := TALL] == All();
    assert [] + [Submit(SHORT)] + [Submit(BASE)] + [Submit(TALL)] == SUBMISSIONS;
  }

  lemma Childless()
    ensures forall h :: h in All() && !HasInsertedChild(All(), h) <==> h == 1 || h == 3
  {
    assert 0 in All()[1].parents && 2 in All()[3].parents;
    assert HasInsertedChild(All(), 0) && HasInsertedChild(All(), 2);
  }

  /** A run whose frontier holds vertices of two heights. */
  lemma FrontierOfTwoHeights()
    ensures IsRun(CFG, GENESIS, SUBMISSIONS)
    ensures var d := Run(CFG, GENESIS, SUBMISSIONS);
            Searchable(d) && Frontier(d) == {1, 3} && d.graph == All() && All()[1].height < All()[3].height
  {
    hide WellFormed, Run, IsRun, Searchable, NoClash, Query, HasInsertedChild, Frontier, Reg;
    AllInsertedRun();
    AllPeaceful();
    Childless();
    ConflictFreeFrontier(CFG, GENESIS, SUBMISSIONS);
  }
}

/** Every event keeps the DAG well-formed. */
module Steps {
  import opened Vertices
  import opened Ancestry
  import opened DagTypes
  import opened Search
  import opened ActiveSets
  import opened Voting
  import opened Insertion
  import opened Dags
  import opened VoteLists

  // ----- inserting -----

  lemma GraphOf(d: Dag)
    requires WellFormed(d)
    ensures Grounded(d.graph) && StateOk(d.graph, d.state) && d.cfg.Valid()
  {
  }

  lemma PassingJoins(d: Dag, v: Vertex)
    requires WellFormed(d) && Passes(d, v)
    ensures Joins(d.graph, v) && v.parents != [] && v.hash != d.cfg.genesis
    ensures Unity(v.hash).Key() !in d.state
  {
    var u := Unity(v.hash);
    if u.Key() in d.state {
      KeyRegistered(d.graph, d.state, u);
      RegEndpoints(d.graph, u);
    }
  }

  lemma OldVertexOk(genesis: VertexHash, g: Graph, v: Vertex, h: VertexHash)
    requires GraphOk(genesis, g) && Joins(g, v) && h in g
    requires Grounded(With(g, v)) && Extends(g, With(g, v))
    ensures VertexOk(genesis, With(g, v), h)
  {
    assert VertexOk(genesis, g, h);
    AntichainStable(g, With(g, v), g[h].parents);
    if h != genesis {
      var p :| p in g[h].parents && p in g && g[h].height == 1 + g[p].height;
      assert With(g, v)[p] == g[p];
    }
  }

  lemma NewVertexOk(genesis: VertexHash, g: Graph, v: Vertex)
    requires Grounded(g) && Joins(g, v) && v.parents != [] && v.hash != genesis && HeightIsNext(g, v)
    requires AllInserted(g, v.parents) && Antichain(g, v.parents)
    requires Grounded(With(g, v)) && Extends(g, With(g, v))
    ensures VertexOk(genesis, With(g, v), v.hash)
  {
    AntichainStable(g, With(g, v), v.parents);
    var p :| p in v.parents && p in g && v.height == 1 + g[p].height;
    assert With(g, v)[p] == g[p];
  }

  lemma InsertGraphOk(genesis: VertexHash, g: Graph, v: Vertex)
    requires GraphOk(genesis, g) && Joins(g, v) && v.parents != [] && HeightIsNext(g, v)
    requires AllInserted(g, v.parents) && Antichain(g, v.parents)
    ensures GraphOk(genesis, With(g, v))
  {
    GrownGraph(g, v);
    forall h | h in With(g, v)
      ensures VertexOk(genesis, With(g, v), h)
    {
      if h in g { OldVertexOk(genesis, g, v, h); } else { NewVertexOk(genesis, g, v); }
    }
  }

  lemma LearnChildrenOk(d: Dag, v: Vertex)
    requires ChildrenOk(d) && (v.hash in d.vertex ==> d.vertex[v.hash] == v)
    ensures ChildrenOk(Learn(d, v))
  {
    var d' := Learn(d, v);
    forall p, h
      ensures p in d'.children && h in d'.children[p] <==> h in d'.vertex && p in d'.vertex[h].parents
    {
    }
  }

  lemma InsertChildrenOk(d: Dag, v: Vertex)
    requires ChildrenOk(d) && Joins(d.graph, v) && (v.hash in d.vertex ==> d.vertex[v.hash] == v)
    ensures ChildrenOk(Insert(d, v))
  {
    hide InsertState;
    var d' := Insert(d, v);
    var ch := WithEntry(d.children, v.hash);
    forall p, h
      ensures p in d'.children && h in d'.children[p] <==> h in d'.vertex && p in d'.vertex[h].parents
    {
      assert p in ch && h in ch[p] <==> p in d.children && h in d.children[p];
    }
  }

  lemma InsertKnownOk(d: Dag, v: Vertex)
    requires KnownOk(d) && Joins(d.graph, v)
    ensures KnownOk(Insert(d, v))
  {
  }

  lemma InsertFrontierOk(d: Dag, v: Vertex)
    requires Grounded(d.graph) && FrontierOk(d) && Joins(d.graph, v)
    ensures FrontierOk(Insert(d, v))
  {
    var g, g' := d.graph, With(d.graph, v);
    forall h | h in g'
      ensures HasInsertedChild(g', h) <==> HasInsertedChild(g, h) || h in v.parents
    {
      if HasInsertedChild(g, h) {
        var w :| w in g && h in g[w].parents;
        assert w in g' && h in g'[w].parents;
      }
      if h in v.parents {
        assert v.hash in g' && h in g'[v.hash].parents;
      }
    }
    assert !HasInsertedChild(g', v.hash) by {
      assert forall w :: w in g ==> ParentsBelow(g, g[w]);
      assert ParentsBelow(g, v);
    }
  }

  lemma InsertChitsOk(d: Dag, v: Vertex)
    requires WellFormed(d) && Joins(d.graph, v)
    ensures ChitsOk(Insert(d, v))
  {
    InsertUnity(d.graph, d.state, v);
    forall h | h in d.pending
      ensures !Chit(InsertState(d.graph, d.state, v), Unity(h))
    {
      RegMember(d.graph, h, Unity(h));
      InsertKeeps(d.graph, d.state, v, Unity(h));
    }
  }

  lemma InsertWellFormed(d: Dag, v: Vertex)
    requires WellFormed(d) && Passes(d, v) && (v.hash in d.vertex ==> d.vertex[v.hash] == v)
    ensures Joins(d.graph, v) && WellFormed(Insert(d, v))
  {
    PassingJoins(d, v);
    InsertGraphOk(d.cfg.genesis, d.graph, v);
    InsertKnownOk(d, v);
    InsertChildrenOk(d, v);
    InsertFrontierOk(d, v);
    InsertChitsOk(d, v);
    InsertKeepsStateOk(d.graph, d.state, v);
    RegMember(d.graph, d.cfg.genesis, Unity(d.cfg.genesis));
    InsertKeeps(d.graph, d.state, v, Unity(d.cfg.genesis));
  }

  lemma LearnKnownOk(d: Dag, v: Vertex)
    requires KnownOk(d) && v.hash !in d.graph
    ensures KnownOk(Learn(d, v))
  {
  }

  // ----- voting -----

  ghost predicate HaveKeys(st: State, cs: seq<Constraint>) {
    forall c :: c in cs ==> c.Key() in st
  }

  lemma AwardStateOk(g: Graph, st: State, u: Constraint)
    requires StateOk(g, st) && u.IsUnity() && u.Key() in st
    ensures StateOk(g, Award(st, u))
  {
    var st' := Award(st, u);
    forall k | k in st'
      ensures ConflictSetOk(g, k, st'[k])
    {
      assert ConflictSetOk(g, k, st[k]);
      forall c: Constraint | c.Key() == k
        ensures EntriesOk(g, st'[k], c)
      {
        assert EntriesOk(g, st[k], c);
      }
    }
  }

  lemma AwardKeeps(st: State, u: Constraint, c: Constraint)
    requires u.Key() in st
    ensures Award(st, u).Keys == st.Keys
    ensures Dec(Award(st, u), c) == Dec(st, c) && Count(Award(st, u), c) == Count(st, c)
    ensures Chit(Award(st, u), c) <==> c == u || Chit(st, c)
    ensures c.Key() in st ==> Award(st, u)[c.Key()].last == st[c.Key()].last
  {
  }

  lemma AwardFacts(g: Graph, st: State, u: Constraint)
    requires StateOk(g, st) && u.IsUnity() && u.Key() in st
    ensures StateOk(g, Award(st, u)) && Award(st, u).Keys == st.Keys
    ensures forall c :: Dec(Award(st, u), c) == Dec(st, c) && Count(Award(st, u), c) == Count(st, c)
    ensures forall c :: Chit(Award(st, u), c) <==> c == u || Chit(st, c)
  {
    AwardStateOk(g, st, u);
    forall c
      ensures Dec(Award(st, u), c) == Dec(st, c) && Count(Award(st, u), c) == Count(st, c)
      ensures Chit(Award(st, u), c) <==> c == u || Chit(st, c)
    {
      AwardKeeps(st, u, c);
    }
  }

  /** The voted vertex, its parents inserted, none of the walked constraints its own unity. */
  lemma PendingVertex(d: Dag, h: VertexHash)
    requires WellFormed(d) && h in d.pending
    ensures d.pending[h] == d.graph[h] && d.graph[h].hash == h && h in d.graph
    ensures d.graph[h].parents != [] && Distinct(d.graph[h].parents) && AllInserted(d.graph, d.graph[h].parents)
    ensures Antichain(d.graph, d.graph[h].parents)
    ensures Unity(h) in Reg(d.graph) && Unity(h).Key() in d.state
    ensures forall x :: x in d.graph ==> Distinct(d.graph[x].parents)
  {
    RegMember(d.graph, h, Unity(h));
    assert VertexOk(d.cfg.genesis, d.graph, h);
    forall x | x in d.graph ensures Distinct(d.graph[x].parents) { assert VertexOk(d.cfg.genesis, d.graph, x); }
  }

  lemma CommittedRegistered(g: Graph, S: set<VertexHash>)
    ensures Committed(g, S) <= Reg(g)
  {
    forall c | c in Committed(g, S)
      ensures c in Reg(g)
    {
      var a :| a in S && a in g && c in PC(g[a].parents);
      RegMember(g, a, c);
    }
  }

  lemma VoteListMember(d: Dag, h: VertexHash, st: State, order: seq<VertexHash>, c: Constraint)
    requires WellFormed(d) && h in d.pending
    ensures c in VoteList(d.graph, st, d.pending[h], order) <==>
            c == Unity(h) || (c in Committed(d.graph, Elements(order)) + PC(d.graph[h].parents) && Undecided(st, c))
  {
    PendingVertex(d, h);
    VoteListContent(d.graph, st, d.pending[h], order);
  }

  lemma VoteListRegistered(d: Dag, h: VertexHash, st: State, order: seq<VertexHash>)
    requires WellFormed(d) && h in d.pending
    ensures forall c :: c in VoteList(d.graph, st, d.pending[h], order) ==> c in Reg(d.graph)
    ensures HaveKeys(d.state, VoteList(d.graph, st, d.pending[h], order))
  {
    forall c | c in VoteList(d.graph, st, d.pending[h], order)
      ensures c in Reg(d.graph)
    {
      VoteListMember(d, h, st, order, c);
      PendingVertex(d, h);
      CommittedRegistered(d.graph, Elements(order));
      if c in PC(d.graph[h].parents) { RegMember(d.graph, h, c); }
    }
  }

  lemma VoteAllStateOk(cfg: Config, g: Graph, st: State, cs: seq<Constraint>, preferred: bool)
    requires Grounded(g) && StateOk(g, st)
    ensures StateOk(g, VoteAll(cfg, g, st, cs, preferred))
    ensures VoteAll(cfg, g, st, cs, preferred).Keys == st.Keys
  {
    VoteAllShape(cfg, g, st, cs, preferred);
    ShapeKeepsStateOk(g, st, VoteAll(cfg, g, st, cs, preferred));
  }

  lemma VoteKeepsRootAccepted(cfg: Config, g: Graph, st: State, c: Constraint, preferred: bool, h: VertexHash)
    requires Grounded(g) && StateOk(g, st) && c.Key() in st
    requires h in g && g[h].parents == [] && Accepted(st, Unity(h))
    ensures Accepted(VoteOn(cfg, g, st, c, preferred), Unity(h))
  {
    if preferred {
      VoteForFacts(cfg, g, st, c, Unity(h));
      RootUnreached(g, h, c);
    }
  }

  lemma {:induction false} VoteAllKeepsRootAccepted(cfg: Config, g: Graph, st: State, cs: seq<Constraint>,
                                                    preferred: bool, h: VertexHash)
    requires Grounded(g) && StateOk(g, st) && HaveKeys(st, cs)
    requires h in g && g[h].parents == [] && Accepted(st, Unity(h))
    ensures Accepted(VoteAll(cfg, g, st, cs, preferred), Unity(h))
  {
    if cs != [] {
      var rest, c := cs[..|cs| - 1], cs[|cs| - 1];
      VoteAllKeepsRootAccepted(cfg, g, st, rest, preferred, h);
      VoteAllStateOk(cfg, g, st, rest, preferred);
      VoteKeepsRootAccepted(cfg, g, VoteAll(cfg, g, st, rest, preferred), c, preferred, h);
    }
  }

  lemma RootUnreached(g: Graph, h: VertexHash, c: Constraint)
    requires Grounded(g) && h in g && g[h].parents == []
    ensures !c.IsUnity() ==> Unity(h) !in Reach(g, c.Flip())
  {
    assert Anc(g, h) == {};
    if Below(g, c.Flip(), Unity(h)) { ACEndpoints(g, h, c.Flip()); }
  }

  lemma VoteStateOk(d: Dag, h: VertexHash, preferred: bool, order: seq<VertexHash>)
    requires WellFormed(d) && h in d.pending
    ensures StateOk(d.graph, RecordVote(d, h, preferred, order).state)
    ensures ChitsOk(RecordVote(d, h, preferred, order))
  {
    PendingVertex(d, h);
    AwardFacts(d.graph, d.state, Unity(h));
    var st := if preferred then Award(d.state, Unity(h)) else d.state;
    var cs := VoteList(d.graph, st, d.pending[h], order);
    VoteAllShape(d.cfg, d.graph, st, cs, preferred);
    ShapeKeepsStateOk(d.graph, st, VoteAll(d.cfg, d.graph, st, cs, preferred));
    ShapeKeepsChits(d.graph, st, VoteAll(d.cfg, d.graph, st, cs, preferred));
  }

  lemma VoteKeepsGenesis(d: Dag, h: VertexHash, preferred: bool, order: seq<VertexHash>)
    requires WellFormed(d) && h in d.pending
    ensures Accepted(RecordVote(d, h, preferred, order).state, Unity(d.cfg.genesis))
  {
    PendingVertex(d, h);
    AwardFacts(d.graph, d.state, Unity(h));
    var st := if preferred then Award(d.state, Unity(h)) else d.state;
    VoteListRegistered(d, h, st, order);
    assert VertexOk(d.cfg.genesis, d.graph, d.cfg.genesis);
    VoteAllKeepsRootAccepted(d.cfg, d.graph, st, VoteList(d.graph, st, d.pending[h], order), preferred, d.cfg.genesis);
  }

  lemma VoteMapsOk(d: Dag, d': Dag, h: VertexHash)
    requires KnownOk(d) && ChildrenOk(d) && FrontierOk(d)
    requires d' == d.(pending := d.pending - {h}, state := d'.state)
    ensures KnownOk(d') && ChildrenOk(d') && FrontierOk(d')
  {
  }

  // ----- events -----

  lemma TryInsertPasses(d: Dag, v: Vertex)
    requires WellFormed(d) && Passes(d, v)
    ensures Joins(d.graph, v) && TryInsert(d, v) == Insert(d, v)
  {
    CheckMeaning(d, v);
    PassingJoins(d, v);
  }

  lemma InsertParts(d: Dag, v: Vertex)
    requires Joins(d.graph, v)
    ensures Insert(d, v).graph == With(d.graph, v) && Insert(d, v).state == InsertState(d.graph, d.state, v)
    ensures Insert(d, v).vertex == d.vertex[v.hash := v] && Insert(d, v).pending == d.pending[v.hash := v]
    ensures Insert(d, v).cfg == d.cfg
  {
    hide InsertState, MapChild, With;
  }

  ghost predicate MustWait(d: Dag, v: Vertex) {
    SanityChecks(v).Ok? && v.hash !in d.graph && !AllInserted(d.graph, v.parents)
  }

  lemma TryInsertFails(d: Dag, v: Vertex)
    requires WellFormed(d) && !Passes(d, v)
    ensures TryInsert(d, v) == if MustWait(d, v) then Learn(d, v) else d
  {
    CheckMeaning(d, v);
  }

  lemma ApplyWellFormed(d: Dag, e: Event)
    requires WellFormed(d) && Legal(d, e)
    ensures WellFormed(Apply(d, e))
  {
    match e
    case Submit(v) =>
      if Passes(d, v) {
        TryInsertPasses(d, v);
        InsertWellFormed(d, v);
      } else {
        TryInsertFails(d, v);
        if MustWait(d, v) {
          LearnChildrenOk(d, v);
          LearnKnownOk(d, v);
        }
      }
    case Vote(h, preferred, order) =>
      if h in d.pending {
        VoteStateOk(d, h, preferred, order);
        VoteKeepsGenesis(d, h, preferred, order);
        VoteMapsOk(d, RecordVote(d, h, preferred, order), h);
      }
  }
}

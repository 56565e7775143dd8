/**
 What single iterations of the loops and single steps of the recursion of the mutable DAG
 contribute to the effect of an event (src/consensus/dag.rs).
 */
module DagLoops {
  import opened Vertices
  import opened Ancestry
  import opened DagTypes
  import opened Search
  import opened ActiveSets
  import opened Voting
  import opened Insertion
  import opened Dags
  import opened VoteLists
  import opened Steps
  import opened Runs
  import opened Ballots
  import opened Arrivals
  import opened ArrivalOrder

  // ----- partial effects of the loops -----

  /** `c` registered as a child of the constraints `done`. */
  ghost function AddChild(st: State, c: Constraint, done: set<Constraint>): State {
    map k | k in st :: WithChild(st[k], c, done)
  }

  ghost function WithChild(s: ConflictSet, c: Constraint, done: set<Constraint>): ConflictSet {
    s.(children := map p | p in s.children :: s.children[p] + if p in done then {c} else {})
  }

  lemma AddChildNone(st: State, c: Constraint)
    ensures AddChild(st, c, {}) == st
  {
    forall k | k in st
      ensures WithChild(st[k], c, {}) == st[k]
    {
      forall p | p in st[k].children ensures st[k].children[p] + {} == st[k].children[p] {}
      SameMap(WithChild(st[k], c, {}).children, st[k].children);
    }
    SameMap(AddChild(st, c, {}), st);
  }

  /** The constraints have their entry among the children of their conflict set. */
  ghost predicate ParentEntries(st: State, ps: set<Constraint>) {
    forall p :: p in ps ==> p.Key() in st && p in st[p.Key()].children
  }

  /** Entries sit in the conflict set their key says. */
  ghost predicate KeysMatch(st: State) {
    forall k, q :: k in st && q in st[k].children ==> q.Key() == k
  }

  lemma AddChildOne(st: State, c: Constraint, done: set<Constraint>, p: Constraint)
    requires p.Key() in st && p in st[p.Key()].children
    requires KeysMatch(st)
    ensures p.Key() in AddChild(st, c, done)
    ensures var mid := AddChild(st, c, done); var s := mid[p.Key()];
            p in s.children && AddChild(st, c, done + {p}) ==
              mid[p.Key() := s.(children := s.children[p := s.children[p] + {c}])]
  {
    var mid := AddChild(st, c, done);
    var s := mid[p.Key()];
    var upd := mid[p.Key() := s.(children := s.children[p := s.children[p] + {c}])];
    forall k | k in st
      ensures AddChild(st, c, done + {p})[k] == upd[k]
    {
      WithChildOne(st[k], c, done, p);
      assert p !in (st[k]).children ==> WithChild(st[k], c, done + {p}) == WithChild(st[k], c, done);
    }
    SameMap(AddChild(st, c, done + {p}), upd);
  }

  lemma WithChildOne(s: ConflictSet, c: Constraint, done: set<Constraint>, p: Constraint)
    ensures p in s.children ==>
              var m := WithChild(s, c, done);
              WithChild(s, c, done + {p}) == m.(children := m.children[p := m.children[p] + {c}])
  {
    if p in s.children {
      var m := WithChild(s, c, done);
      var n := m.children[p := m.children[p] + {c}];
      forall q | q in s.children
        ensures WithChild(s, c, done + {p}).children[q] == n[q]
      {
        assert q == p ==> n[q] == s.children[p] + {c} == WithChild(s, c, done + {p}).children[p];
      }
      SameMap(WithChild(s, c, done + {p}).children, n);
    }
  }

  lemma AddChildAll(g: Graph, s: ConflictSet, c: Constraint)
    ensures WithChild(s, c, ConstraintParents(g, c)) == WithChildren(g, s, {c})
  {
    forall p | p in s.children
      ensures (if p in ConstraintParents(g, c) then {c} else {}) == ChildrenAmong(g, p, {c})
    {
    }
    assert WithChild(s, c, ConstraintParents(g, c)).children == WithChildren(g, s, {c}).children;
  }

  /** Registering one constraint: its parents first, then its own conflict set if it is new. */
  lemma RegisterOne(g: Graph, st: State, c: Constraint)
    ensures OneOrder({c})
    ensures Register(g, st, {c}) ==
            var st' := AddChild(st, c, ConstraintParents(g, c));
            if c.Key() in st then st' else st'[c.Key() := FreshSet(g, st, c)]
  {
    var ps := ConstraintParents(g, c);
    var st' := AddChild(st, c, ps);
    var r := if c.Key() in st then st' else st'[c.Key() := FreshSet(g, st, c)];
    assert KeysOf({c}) == {c.Key()};
    forall k | k in r
      ensures Register(g, st, {c})[k] == r[k]
    {
      if k in st { AddChildAll(g, st[k], c); } else { assert WithKey({c}, k) == c; }
    }
    SameMap(Register(g, st, {c}), r);
  }

  /** Registration keeps the entries. */
  lemma RegisterEntries(g: Graph, st: State, S: set<Constraint>)
    requires OneOrder(S) && KeysMatch(st)
    ensures KeysMatch(Register(g, st, S))
    ensures forall p: Constraint :: p.Key() in st && p in st[p.Key()].children ==>
              p.Key() in Register(g, st, S) && p in Register(g, st, S)[p.Key()].children
    ensures forall c :: c in S && c.Key() !in st ==>
              c.Key() in Register(g, st, S) && c in Register(g, st, S)[c.Key()].children
  {
    forall k, q | k in Register(g, st, S) && q in Register(g, st, S)[k].children
      ensures q.Key() == k
    {
      if k !in st { KeyIdentifiesConflictSet(WithKey(S, k), q); FreshShape(g, st, WithKey(S, k), q); }
    }
    forall c | c in S && c.Key() !in st
      ensures c.Key() in Register(g, st, S) && c in Register(g, st, S)[c.Key()].children
    {
      assert c.Key() in KeysOf(S);
      assert WithKey(S, c.Key()) == c;
    }
  }

  lemma MapChildNone(ch: map<VertexHash, set<VertexHash>>, h: VertexHash)
    ensures MapChild(ch, h, []) == ch
  {
    forall p | p in ch ensures ch[p] + {} == ch[p] {}
    SameMap(MapChild(ch, h, []), ch);
  }

  lemma MapChildOne(ch: map<VertexHash, set<VertexHash>>, h: VertexHash, ps: seq<VertexHash>, i: nat)
    requires i < |ps|
    ensures var m := MapChild(ch, h, ps[..i]);
            MapChild(ch, h, ps[..i + 1]) == m[ps[i] := if ps[i] in m then m[ps[i]] + {h} else {h}]
  {
    assert ps[..i + 1] == ps[..i] + [ps[i]];
    var m := MapChild(ch, h, ps[..i]);
    var n := m[ps[i] := if ps[i] in m then m[ps[i]] + {h} else {h}];
    assert Elements(ps[..i + 1]) == Elements(ps[..i]) + {ps[i]};
    forall p | p in n
      ensures MapChild(ch, h, ps[..i + 1])[p] == n[p]
    {
      assert p != ps[i] ==> (p in ps[..i + 1] <==> p in ps[..i]);
    }
    SameMap(MapChild(ch, h, ps[..i + 1]), n);
  }

  lemma SameRegister(g: Graph, g': Graph, st: State, c: Constraint)
    requires ConstraintParents(g, c) == ConstraintParents(g', c)
    ensures OneOrder({c}) && Register(g, st, {c}) == Register(g', st, {c})
  {
    RegisterOne(g, st, c);
    RegisterOne(g', st, c);
    assert HasRejectedParent(g, st, c) == HasRejectedParent(g', st, c);
  }

  /** Before a pair of parents is registered, its constraint parents have their entries. */
  lemma PairReady(g: Graph, st: State, v: Vertex, S: set<Constraint>, c: Constraint)
    requires Grounded(g) && StateOk(g, st) && Joins(g, v) && c in PC(v.parents) && OneOrder(S)
    ensures ParentEntries(Register(With(g, v), st, S), ConstraintParents(With(g, v), c))
    ensures KeysMatch(Register(With(g, v), st, S))
    ensures forall p :: p in ConstraintParents(With(g, v), c) ==> p.Key() in st
  {
    hide Grounded, Joins, Register, With, Reg;
    RegisterEntries(With(g, v), st, S);
    OldConstraints(g, v, c);
    forall p | p in ConstraintParents(With(g, v), c)
      ensures p.Key() in st && p in st[p.Key()].children
    {
      EntryOf(g, st, p);
    }
  }

  /** Before the unity of the vertex is registered, the pairs it commits to have their entries. */
  lemma UnityReady(g: Graph, st: State, v: Vertex)
    requires Grounded(g) && StateOk(g, st) && Joins(g, v)
    ensures OneOrder(PC(v.parents)) && ConstraintParents(With(g, v), Unity(v.hash)) == PC(v.parents)
    ensures ParentEntries(Register(With(g, v), st, PC(v.parents)), PC(v.parents))
    ensures KeysMatch(Register(With(g, v), st, PC(v.parents)))
  {
    hide Grounded, Register, Reg, OneOrder;
    ParentListOneOrder(v.parents);
    RegisterEntries(With(g, v), st, PC(v.parents));
    forall p | p in PC(v.parents) && p.Key() in st
      ensures p in st[p.Key()].children
    {
      EntryOf(g, st, p);
    }
  }

  lemma RegisterNothing(g: Graph, st: State)
    requires OneOrder({})
    ensures Register(g, st, {}) == st
  {
    forall k | k in st
      ensures WithChildren(g, st[k], {}) == st[k]
    {
      forall p | p in st[k].children ensures st[k].children[p] + ChildrenAmong(g, p, {}) == st[k].children[p] {}
      SameMap(WithChildren(g, st[k], {}).children, st[k].children);
    }
    SameMap(Register(g, st, {}), st);
  }

  ghost function ReachAll(g: Graph, S: set<Constraint>): set<Constraint>
    requires Grounded(g)
  {
    set d, e | d in S && e in Reach(g, d) :: e
  }

  lemma RejectOneMore(g: Graph, st: State, c: Constraint, done: set<Constraint>, d: Constraint)
    requires Grounded(g)
    ensures RejectAll(RejectAll(st, {c} + ReachAll(g, done)), Reach(g, d)) ==
        RejectAll(st, {c} + ReachAll(g, done + {d}))
  {
    RejectAllUnion(st, {c} + ReachAll(g, done), Reach(g, d));
    assert {c} + ReachAll(g, done) + Reach(g, d) == {c} + ReachAll(g, done + {d});
  }

  lemma RejectJust(st: State, c: Constraint)
    requires c.Key() in st
    ensures st[c.Key() := st[c.Key()].(decision := st[c.Key()].decision[c := false])] == RejectAll(st, {c})
  {
    var r := st[c.Key() := st[c.Key()].(decision := st[c.Key()].decision[c := false])];
    forall k | k in st
      ensures r[k] == RejectAll(st, {c})[k]
    {
      JustRejections(st[k].decision, c, k);
    }
    SameMap(r, RejectAll(st, {c}));
  }

  lemma JustRejections(d: map<Constraint, bool>, c: Constraint, k: ConflictSetKey)
    ensures d + Rejections({c}, k) == if c.Key() == k then d[c := false] else d
  {
  }

  lemma KnownExtends(g: Graph, known: Graph, v: Vertex)
    requires Extends(g, known)
    ensures Extends(With(g, v), known[v.hash := v])
  {
  }

  // ----- checks and searches -----

  lemma FilterSplits(ps: seq<VertexHash>, keep: set<VertexHash>)
    requires ps != []
    ensures Filter(ps, keep) == (if ps[0] in keep then [ps[0]] else []) + Filter(ps[1..], keep)
  {
  }

  lemma {:induction false} FilterOneMore(ps: seq<VertexHash>, p: VertexHash, keep: set<VertexHash>)
    ensures Filter(ps + [p], keep) == Filter(ps, keep) + if p in keep then [p] else []
  {
    hide Filter;
    FilterSplits(ps + [p], keep);
    if ps == [] {
      assert (ps + [p])[1..] == [];
    } else {
      FilterSplits(ps, keep);
      assert (ps + [p])[1..] == ps[1..] + [p];
      FilterOneMore(ps[1..], p, keep);
    }
  }

  /** The undecided constraints met along the active ancestors, as a list and as a set. */
  lemma ListIsActive(d: Dag, v: Vertex, order: seq<VertexHash>)
    requires WellFormed(d) && Distinct(v.parents)
    ensures Elements(OnlyUndecided(d.state, Unique(Commitments(d.graph, order) + ConstraintSeq(v.parents)))) ==
            set c | c in Committed(d.graph, Elements(order)) + PC(v.parents) && Undecided(d.state, c)
  {
    hide ConstraintSeq, Committed, PC, Dec;
    var all := Commitments(d.graph, order) + ConstraintSeq(v.parents);
    UniqueFacts(all);
    OnlyUndecidedFacts(d.state, Unique(all));
    ConstraintSeqElements(v.parents);
    forall c
      ensures c in Commitments(d.graph, order) <==> c in Committed(d.graph, Elements(order))
    {
      CommitmentsContent(d.graph, order, c);
    }
  }

  lemma LearnIs(d: Dag, v: Vertex)
    ensures Learn(d, v) == d.(vertex := d.vertex[v.hash := v], children := MapChild(d.children, v.hash, v.parents))
  {
  }

  lemma KnownIsExtension(d: Dag)
    requires WellFormed(d)
    ensures Extends(d.graph, d.vertex)
  {
  }

  lemma InsertedEntry(d: Dag, v: Vertex)
    requires Joins(d.graph, v)
    ensures v.hash in Insert(d, v).children
  {
  }

  lemma LowestExists(g: Graph, s: set<VertexHash>)
    requires s != {} && forall h :: h in s ==> h in g
    ensures exists a :: a in s && forall h :: h in s ==> g[a].height <= g[h].height
  {
    var heights := set h | h in s :: g[h].height;
    var x :| x in s;
    assert g[x].height in heights;
    var k := MinOf(heights);
    var a :| a in s && g[a].height == k;
    forall h | h in s ensures g[a].height <= g[h].height { assert g[h].height in heights; }
  }

  lemma ActiveInserted(known: Graph, g: Graph, st: State, ps: seq<VertexHash>)
    requires Grounded(g) && ps != [] && forall p :: p in ps && p in known ==> p in g
    ensures ActiveAncestors(known, g, st, ps).Ok? ==>
              forall a :: a in ActiveAncestors(known, g, st, ps).value ==> a in g
  {
    if ActiveAncestors(known, g, st, ps).Ok? {
      var k := SearchHeight(g, st, ps).value;
      forall a | a in AncestorsOfParents(g, ps, k) ensures a in g { GatheredInGraph(g, ps, k, a); }
    }
  }

  lemma KidKey(g: Graph, st: State, c: Constraint, d: Constraint)
    requires StateOk(g, st) && d in Kids(g, c)
    ensures d.Key() in st
  {
  }

  /** The given constraints marked as accepted, in order. */
  ghost function Finalized(st: State, cs: seq<Constraint>): State {
    if cs == [] then st
    else
      var before, c := Finalized(st, cs[..|cs| - 1]), cs[|cs| - 1];
      if c.Key() in before then
        before[c.Key() := before[c.Key()].(decision := before[c.Key()].decision[c := true])]
      else before
  }

  lemma SameKey(c: Constraint)
    ensures c.Key() == c.Flip().Key()
  {
  }

  function EmptyDag(cfg: Config): Dag {
    Dag(cfg, map[], map[], map[], map[], map[], map[])
  }

  lemma FirstInsert(cfg: Config, v: Vertex)
    requires IsGenesis(cfg, v)
    ensures Grounded(map[]) && StateOk(map[], map[]) && Joins(map[], v)
    ensures var d := Insert(EmptyDag(cfg), v); var u := Unity(v.hash);
            && d.vertex == map[v.hash := v] && d.graph == map[v.hash := v] && d.pending == map[v.hash := v]
            && d.children == map[v.hash := {}] && d.frontier == map[v.hash := v]
            && d.state == map[u.Key() := NewConflictSet(u, {})]
  {
    var u, g := Unity(v.hash), With(map[], v);
    assert PC(v.parents) == {};
    RegisterNothing(g, map[]);
    RegisterOne(g, map[], u);
    assert ConstraintParents(g, u) == {};
    assert AddChild(map[], u, {}) == map[];
    assert Register(g, map[], {u}) == map[u.Key() := NewConflictSet(u, {})];
  }

  lemma SearchAfterAward(d: Dag, h: VertexHash, preferred: bool)
    requires WellFormed(d) && h in d.pending && h in d.graph && h != d.cfg.genesis
    ensures d.pending[h] == d.graph[h] && d.graph[h].parents != [] && AllInserted(d.graph, d.graph[h].parents)
    ensures Distinct(d.graph[h].parents) && Extends(d.graph, d.vertex)
    ensures var ps := d.graph[h].parents; var found := ActiveAncestors(d.vertex, d.graph, d.state, ps);
            && (found.Ok? <==> CanRecord(d, h))
            && ActiveAncestors(d.vertex, d.graph, Awarded(d, h, preferred), ps) == found
  {
    hide WellFormed, StateOk, Rooted, Antichain, ActiveAncestors, Award, Awarded;
    PendingVertex(d, h);
    GraphOf(d);
    KnownIsExtension(d);
    AwardedFacts(d, h, preferred);
    RootedGraph(d);
    assert DecidedIn(d.graph, d.state) == DecidedIn(d.graph, Awarded(d, h, preferred));
    SearchOutcome(d.vertex, d.graph, d.state, d.graph[h].parents);
    SearchOutcome(d.vertex, d.graph, Awarded(d, h, preferred), d.graph[h].parents);
  }

  lemma PendingInserted(d: Dag, h: VertexHash)
    requires WellFormed(d) && h in d.pending
    ensures h in d.graph && h != d.cfg.genesis
  {
  }

  /** A vote on a vertex waiting for a result can be recorded if its search meets no rejected
      vertex. */
  ghost predicate CanRecord(d: Dag, h: VertexHash)
    requires WellFormed(d)
  {
    h in d.pending ==> (PendingInserted(d, h); SearchFor(d, h).Ok?)
  }

  /** The DAG as a failed recording leaves it: no longer waiting for a result, the chit awarded. */
  ghost function Torn(d: Dag, h: VertexHash, preferred: bool): Dag {
    d.(pending := d.pending - {h}, state := Awarded(d, h, preferred))
  }

  /** That is: nothing has been voted on, and a positive result has given its vertex the chit. */
  lemma TornFacts(d: Dag, h: VertexHash, preferred: bool)
    requires WellFormed(d) && h in d.pending
    ensures var d' := Torn(d, h, preferred);
            && h !in d'.pending && d'.pending == d.pending - {h} && d'.graph == d.graph && d'.vertex == d.vertex
            && d'.children == d.children && d'.frontier == d.frontier && d'.cfg == d.cfg
            && d'.state.Keys == d.state.Keys
            && (forall k :: k in d.state ==> d'.state[k] == d.state[k].(chit := d'.state[k].chit))
            && (forall c :: Chit(d'.state, c) <==> Chit(d.state, c) || (preferred && c == Unity(h)))
  {
    hide WellFormed, StateOk;
    AwardedFacts(d, h, preferred);
    PendingVertex(d, h);
  }

  // ----- the retry queue -----

  /** Pushes the members of a set in any order. */
  method PushAll(queue: seq<VertexHash>, hashes: set<VertexHash>) returns (r: seq<VertexHash>)
    ensures Elements(r) == Elements(queue) + hashes
  {
    r := queue;
    var todo := hashes;
    while todo != {}
      invariant todo <= hashes && Elements(r) == Elements(queue) + (hashes - todo)
      decreases todo
    {
      var h :| h in todo;
      assert Elements(r + [h]) == Elements(r) + {h};
      r, todo := r + [h], todo - {h};
    }
  }

  /** Nothing but submissions of known vertices. */
  ghost predicate Resubmits(known: Graph, tail: seq<Event>) {
    forall e :: e in tail ==> e.Submit? && e.v in known.Values
  }

  lemma ReadyKnown(d: Dag)
    requires WellFormed(d)
    ensures Grounded(d.graph) && (forall h :: h in Ready(d) ==> h in d.vertex) && d.cfg.genesis in d.graph
  {
  }

  /** Submitting a known vertex again adds nothing to the submitted vertices, unless it is genesis. */
  lemma SubmittedAgain(cfg: Config, v0: Vertex, log: seq<Event>, h: VertexHash)
    requires cfg.Valid() && IsGenesis(cfg, v0) && IsRun(cfg, v0, log) && h in Run(cfg, v0, log).vertex
    ensures var v := Run(cfg, v0, log).vertex[h];
            && (h != cfg.genesis ==> Submitted(log + [Submit(v)]) == Submitted(log))
            && (VoteFree(log) ==> VoteFree(log + [Submit(v)]))
  {
    hide Run, IsRun, Legal, Submitted, VoteFree, WellFormed;
    var d := Run(cfg, v0, log);
    KnownIsLegal(d, h);
    SubmittedOneMore(log, d.vertex[h]);
    KnownWasSubmitted(cfg, v0, log, h);
  }
}

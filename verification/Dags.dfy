/**
 The DAG as a value: its maps, the checks before insertion, and the effect of one event
 (src/consensus/dag.rs: `new`, `check_vertex`, `insert`, `try_insert`, `record_query_result`).
 */
module Dags {
  import opened Wrappers
  import opened Vertices
  import opened Ancestry
  import opened DagTypes
  import opened Search
  import opened ActiveSets
  import opened Voting
  import opened Insertion

  /** `vertex` holds the known vertices, `graph` the inserted ones, `pending` those waiting for
      a query result. */
  datatype Dag = Dag(
    cfg: Config,
    vertex: Graph,
    graph: Graph,
    pending: Graph,
    children: map<VertexHash, set<VertexHash>>,
    state: State,
    frontier: Graph)

  // ----- well-formedness -----

  ghost predicate HeightIsNext(g: Graph, v: Vertex) {
    && ParentsBelow(g, v)
    && exists p :: p in v.parents && p in g && v.height == 1 + g[p].height
  }

  /** Genesis is the only vertex without parents; every other one has different parents, none
      an ancestor of another, and is one higher than the highest of them. */
  ghost predicate VertexOk(genesis: VertexHash, g: Graph, h: VertexHash)
    requires Grounded(g) && h in g
  {
    && (g[h].parents == [] <==> h == genesis)
    && Distinct(g[h].parents)
    && AllInserted(g, g[h].parents) && Antichain(g, g[h].parents)
    && (h != genesis ==> HeightIsNext(g, g[h]))
  }

  ghost predicate GraphOk(genesis: VertexHash, g: Graph) {
    && Grounded(g)
    && genesis in g
    && forall h :: h in g ==> VertexOk(genesis, g, h)
  }

  ghost predicate KnownOk(d: Dag) {
    && (forall h :: h in d.graph ==> h in d.vertex && d.vertex[h] == d.graph[h])
    && (forall h :: h in d.vertex ==> d.vertex[h].hash == h)
    && (forall h :: h in d.pending ==> h in d.graph && d.pending[h] == d.graph[h])
  }

  /** `children` is the inverse of the parent relation on known vertices. */
  ghost predicate ChildrenOk(d: Dag) {
    && (forall h :: h in d.graph ==> h in d.children)
    && (forall p, h :: p in d.children && h in d.children[p] ==> h in d.vertex && p in d.vertex[h].parents)
    && (forall p, h :: h in d.vertex && p in d.vertex[h].parents ==> p in d.children && h in d.children[p])
  }

  ghost predicate HasInsertedChild(g: Graph, h: VertexHash) {
    exists w :: w in g && h in g[w].parents
  }

  /** `frontier` is the inserted vertices without inserted children. */
  ghost predicate FrontierOk(d: Dag) {
    && (forall h :: h in d.frontier ==> h in d.graph && d.frontier[h] == d.graph[h] && !HasInsertedChild(d.graph, h))
    && (forall h :: h in d.graph && !HasInsertedChild(d.graph, h) ==> h in d.frontier)
  }

  ghost predicate ChitsOk(d: Dag) {
    forall h :: h in d.pending ==> !Chit(d.state, Unity(h))
  }

  ghost predicate WellFormed(d: Dag) {
    && d.cfg.Valid()
    && GraphOk(d.cfg.genesis, d.graph)
    && KnownOk(d) && ChildrenOk(d) && FrontierOk(d)
    && StateOk(d.graph, d.state)
    && ChitsOk(d)
    && Accepted(d.state, Unity(d.cfg.genesis))
    && d.cfg.genesis !in d.pending
  }

  lemma RootedGraph(d: Dag)
    requires WellFormed(d)
    ensures Rooted(d.graph, DecidedIn(d.graph, d.state))
  {
  }

  // ----- genesis -----

  ghost predicate IsGenesis(cfg: Config, v: Vertex) {
    v == Vertex(cfg.genesis, VERSION, 0, [])
  }

  function GenesisState(u: Constraint): State {
    map[u.Key() := NewConflictSet(u, {}).(decision := map[u := true])]
  }

  function Genesis(cfg: Config, v: Vertex): Dag {
    Dag(cfg, map[v.hash := v], map[v.hash := v], map[], map[v.hash := {}], GenesisState(Unity(v.hash)),
        map[v.hash := v])
  }

  lemma GenesisGraph(cfg: Config, v: Vertex)
    requires IsGenesis(cfg, v)
    ensures GraphOk(cfg.genesis, map[v.hash := v]) && Reg(map[v.hash := v]) == {Unity(v.hash)}
  {
    var g: Graph := map[v.hash := v];
    RegMember(g, v.hash, Unity(v.hash));
    assert Commits(v) == {Unity(v.hash)};
  }

  lemma GenesisStateOk(cfg: Config, v: Vertex)
    requires IsGenesis(cfg, v)
    ensures StateOk(map[v.hash := v], GenesisState(Unity(v.hash)))
  {
    var g: Graph, u := map[v.hash := v], Unity(v.hash);
    var st := GenesisState(u);
    GenesisGraph(cfg, v);
    forall c: Constraint | c.Key() == u.Key()
      ensures EntriesOk(g, st[u.Key()], c)
    {
      KeyIdentifiesConflictSet(u, c);
      assert c == u && ConstraintParents(g, u) == {};
      assert Kids(g, u) == {};
    }
    assert ConflictSetOk(g, u.Key(), st[u.Key()]);
  }

  lemma GenesisWellFormed(cfg: Config, v: Vertex)
    requires cfg.Valid() && IsGenesis(cfg, v)
    ensures WellFormed(Genesis(cfg, v))
  {
    hide StateOk, GraphOk;
    GenesisGraph(cfg, v);
    GenesisStateOk(cfg, v);
  }

  // ----- checking a vertex -----

  function Filter(ps: seq<VertexHash>, keep: set<VertexHash>): (r: seq<VertexHash>)
    ensures forall p :: p in r <==> p in ps && p in keep
    ensures r != [] <==> exists p :: p in ps && p in keep
  {
    if ps == [] then []
    else (if ps[0] in keep then [ps[0]] else []) + Filter(ps[1..], keep)
  }

  function MaxHeight(g: Graph, ps: seq<VertexHash>): (m: nat)
    requires ps != [] && AllInserted(g, ps)
    ensures exists p :: p in ps && g[p].height == m
    ensures forall p :: p in ps ==> g[p].height <= m
  {
    assert ps == [ps[0]] + ps[1..];
    if |ps| == 1 then g[ps[0]].height
    else
      var m := MaxHeight(g, ps[1..]);
      if g[ps[0]].height >= m then g[ps[0]].height else m
  }

  predicate HasConflict(cs: set<Constraint>) {
    exists c :: c in cs && !c.IsUnity() && c.Flip() in cs
  }

  /** The checks a vertex must pass before it is inserted. */
  function Check(d: Dag, v: Vertex): Result<(), Error>
    requires Grounded(d.graph)
  {
    match SanityChecks(v)
    case Err(e) => Err(InvalidVertex(e))
    case Ok(_) =>
      var missing := Filter(v.parents, Elements(v.parents) - d.vertex.Keys);
      var waiting := Filter(v.parents, d.vertex.Keys - d.graph.Keys);
      if v.hash in d.graph then Err(AlreadyInserted)
      else if missing != [] then Err(MissingParents(missing))
      else if waiting != [] then Err(WaitingOnParents(waiting))
      else
        var expected := 1 + MaxHeight(d.vertex, v.parents);
        if expected != v.height then Err(BadHeight(expected, v.height))
        else
          match ActiveConstraints(d.vertex, d.graph, d.state, v)
          case Err(e) => Err(e)
          case Ok(cs) => if HasConflict(cs) then Err(ConflictingAncestors) else Ok(())
  }

  ghost predicate Passes(d: Dag, v: Vertex)
    requires Grounded(d.graph)
  {
    && SanityChecks(v).Ok?
    && v.hash !in d.graph
    && AllInserted(d.graph, v.parents)
    && HeightIsNext(d.graph, v)
    && !HitsRejected(d.state, OpenAll(d.graph, DecidedIn(d.graph, d.state), v.parents))
    && Antichain(d.graph, v.parents)
    && !HasConflict(OpenConstraints(d.graph, d.state, v.parents))
  }

  /** The outcome of the search for the constraints of a vertex whose parents are inserted. */
  ghost function SearchResult(d: Dag, ps: seq<VertexHash>): Result<set<Constraint>, Error>
    requires Grounded(d.graph) && AllInserted(d.graph, ps)
  {
    if HitsRejected(d.state, OpenAll(d.graph, DecidedIn(d.graph, d.state), ps)) then Err(RejectedAncestor)
    else if !Antichain(d.graph, ps) then Err(SelfReferentialParent)
    else Ok(OpenConstraints(d.graph, d.state, ps))
  }

  predicate AwaitsParents(r: Result<(), Error>) {
    r.Err? && (r.error.MissingParents? || r.error.WaitingOnParents?)
  }

  lemma CheckUnfolds(d: Dag, v: Vertex)
    requires Grounded(d.graph) && SanityChecks(v).Ok? && v.hash !in d.graph
    requires AllInserted(d.graph, v.parents) && AllInserted(d.vertex, v.parents)
    ensures Check(d, v) ==
            if 1 + MaxHeight(d.vertex, v.parents) != v.height
              then Err(BadHeight(1 + MaxHeight(d.vertex, v.parents), v.height))
            else match ActiveConstraints(d.vertex, d.graph, d.state, v)
                 case Err(e) => Err(e)
                 case Ok(cs) => if HasConflict(cs) then Err(ConflictingAncestors) else Ok(())
  {
    hide Grounded, ActiveConstraints, MaxHeight, HasConflict, Filter;
  }

  lemma CheckCases(d: Dag, v: Vertex)
    requires Grounded(d.graph) && SanityChecks(v).Ok? && v.hash !in d.graph
    requires AllInserted(d.graph, v.parents) && AllInserted(d.vertex, v.parents)
    requires 1 + MaxHeight(d.vertex, v.parents) == v.height <==> HeightIsNext(d.graph, v)
    requires ActiveConstraints(d.vertex, d.graph, d.state, v) == SearchResult(d, v.parents)
    ensures Check(d, v).Ok? <==> Passes(d, v)
    ensures !AwaitsParents(Check(d, v))
  {
    CheckUnfolds(d, v);
  }

  lemma CheckWithoutParents(d: Dag, v: Vertex)
    requires Grounded(d.graph) && SanityChecks(v).Ok? && v.hash !in d.graph && !AllInserted(d.graph, v.parents)
    ensures AwaitsParents(Check(d, v))
  {
    var p :| p in v.parents && p !in d.graph;
    assert p in Elements(v.parents) - d.vertex.Keys || p in d.vertex.Keys - d.graph.Keys;
  }

  /** The checks pass exactly when the vertex is sane, new, one above its inserted parents, which
      form an antichain no search from which meets a rejected vertex, and when no two undecided
      constraints in its ancestry conflict. */
  lemma CheckMeaning(d: Dag, v: Vertex)
    requires WellFormed(d)
    ensures Check(d, v).Ok? <==> Passes(d, v)
    ensures AwaitsParents(Check(d, v)) <==>
              SanityChecks(v).Ok? && v.hash !in d.graph && !AllInserted(d.graph, v.parents)
  {
    if SanityChecks(v).Ok? && v.hash !in d.graph {
      if AllInserted(d.graph, v.parents) {
        HeightMeaning(d, v);
        RootedGraph(d);
        SearchOutcome(d.vertex, d.graph, d.state, v.parents);
        CheckCases(d, v);
      } else {
        CheckWithoutParents(d, v);
      }
    }
  }

  ghost predicate Before(ps: seq<VertexHash>, a: VertexHash, b: VertexHash) {
    exists k, l :: 0 <= k < l < |ps| && ps[k] == a && ps[l] == b
  }

  /** `ms` is the items of `ps` in `keep`, in their order. */
  ghost predicate Selection(ms: seq<VertexHash>, ps: seq<VertexHash>, keep: set<VertexHash>) {
    && (forall p :: p in ms <==> p in ps && p in keep)
    && (forall i, j :: 0 <= i < j < |ms| ==> Before(ps, ms[i], ms[j]))
  }

  lemma BeforeTail(ps: seq<VertexHash>, a: VertexHash, b: VertexHash)
    requires ps != []
    ensures b in ps[1..] ==> Before(ps, ps[0], b)
    ensures Before(ps[1..], a, b) ==> Before(ps, a, b)
  {
    var tail := ps[1..];
    if l :| 0 <= l < |tail| && tail[l] == b { assert ps[0] == ps[0] && ps[l + 1] == b; }
    if k, l :| 0 <= k < l < |tail| && tail[k] == a && tail[l] == b { assert ps[k + 1] == a && ps[l + 1] == b; }
  }

  lemma {:induction false} FilterSelects(ps: seq<VertexHash>, keep: set<VertexHash>)
    ensures Selection(Filter(ps, keep), ps, keep)
  {
    if ps != [] {
      hide Before;
      FilterSelects(ps[1..], keep);
      var ms, rest := Filter(ps, keep), Filter(ps[1..], keep);
      forall i, j | 0 <= i < j < |ms|
        ensures Before(ps, ms[i], ms[j])
      {
        BeforeTail(ps, ms[i], ms[j]);
        if ms == [ps[0]] + rest && i == 0 { assert ms[j] == rest[j - 1]; }
      }
    }
  }

  lemma {:induction false} SelectionIsFilter(ms: seq<VertexHash>, ps: seq<VertexHash>, keep: set<VertexHash>)
    requires Distinct(ps) && Selection(ms, ps, keep)
    ensures ms == Filter(ps, keep)
  {
    if ps == [] {
      assert ms != [] ==> ms[0] in ms;
    } else if ps[0] in keep {
      assert ps[0] in ms;
      var i :| 0 <= i < |ms| && ms[i] == ps[0];
      assert i > 0 ==> Before(ps, ms[0], ms[i]);
      assert ms == [ps[0]] + ms[1..];
      TailSelection(ms, ps, keep);
      SelectionIsFilter(ms[1..], ps[1..], keep);
    } else {
      SameSelection(ms, ps, keep);
      SelectionIsFilter(ms, ps[1..], keep);
    }
  }

  lemma TailSelection(ms: seq<VertexHash>, ps: seq<VertexHash>, keep: set<VertexHash>)
    requires Distinct(ps) && Selection(ms, ps, keep) && ms != [] && ps != [] && ms[0] == ps[0]
    ensures Selection(ms[1..], ps[1..], keep)
  {
  }

  lemma SameSelection(ms: seq<VertexHash>, ps: seq<VertexHash>, keep: set<VertexHash>)
    requires Distinct(ps) && Selection(ms, ps, keep) && ps != [] && ps[0] !in keep
    ensures Selection(ms, ps[1..], keep)
  {
  }

  lemma HeightMeaning(d: Dag, v: Vertex)
    requires KnownOk(d) && v.parents != [] && AllInserted(d.graph, v.parents)
    ensures AllInserted(d.vertex, v.parents)
    ensures 1 + MaxHeight(d.vertex, v.parents) == v.height <==> HeightIsNext(d.graph, v)
  {
  }

  /** What the checks of `v` must answer, by what is known, inserted and decided.  The first thing
      found wrong is reported. */
  ghost predicate IsCheckOutcome(d: Dag, v: Vertex, r: Result<(), Error>)
    requires Grounded(d.graph)
  {
    if v.version != VERSION then r == Err(InvalidVertex(BadVersion(VERSION, v.version)))
    else if v.parents == [] then r == Err(InvalidVertex(MissingField("parents")))
    else if !Distinct(v.parents) then r == Err(InvalidVertex(DuplicateParents))
    else if v.hash in d.graph then r == Err(AlreadyInserted)
    else if exists p :: p in v.parents && p !in d.vertex then
      && r.Err? && r.error.MissingParents?
      && Selection(r.error.missing, v.parents, Elements(v.parents) - d.vertex.Keys)
    else if !AllInserted(d.graph, v.parents) then
      && r.Err? && r.error.WaitingOnParents?
      && Selection(r.error.waiting, v.parents, d.vertex.Keys - d.graph.Keys)
    else if !HeightIsNext(d.graph, v) then
      && r.Err? && r.error.BadHeight? && r.error.found == v.height
      && (exists p :: p in v.parents && r.error.expected == 1 + d.graph[p].height)
      && (forall p :: p in v.parents ==> r.error.expected >= 1 + d.graph[p].height)
    else if HitsRejected(d.state, OpenAll(d.graph, DecidedIn(d.graph, d.state), v.parents)) then
      r == Err(RejectedAncestor)
    else if !Antichain(d.graph, v.parents) then r == Err(SelfReferentialParent)
    else if HasConflict(OpenConstraints(d.graph, d.state, v.parents)) then r == Err(ConflictingAncestors)
    else r == Ok(())
  }

  lemma KnownToo(d: Dag, ps: seq<VertexHash>)
    requires KnownOk(d) && AllInserted(d.graph, ps)
    ensures AllInserted(d.vertex, ps) && forall p :: p in ps ==> d.vertex[p] == d.graph[p]
  {
  }

  lemma SearchIsResult(d: Dag, v: Vertex)
    requires WellFormed(d) && v.parents != [] && AllInserted(d.graph, v.parents) && AllInserted(d.vertex, v.parents)
    ensures ActiveConstraints(d.vertex, d.graph, d.state, v) == SearchResult(d, v.parents)
  {
    hide HitsRejected, OpenAll, Antichain, Active, DecidedIn, ActiveAncestors;
    RootedGraph(d);
    SearchOutcome(d.vertex, d.graph, d.state, v.parents);
  }

  lemma ExpectedHeight(d: Dag, v: Vertex, r: Result<(), Error>)
    requires KnownOk(d) && v.parents != [] && AllInserted(d.graph, v.parents) && AllInserted(d.vertex, v.parents)
    ensures 1 + MaxHeight(d.vertex, v.parents) == v.height <==> HeightIsNext(d.graph, v)
    ensures r == Err(BadHeight(1 + MaxHeight(d.vertex, v.parents), v.height)) <==>
            && r.Err? && r.error.BadHeight? && r.error.found == v.height
            && (exists p :: p in v.parents && r.error.expected == 1 + d.graph[p].height)
            && (forall p :: p in v.parents ==> r.error.expected >= 1 + d.graph[p].height)
  {
    HeightMeaning(d, v);
  }

  lemma AwaitedParents(d: Dag, v: Vertex, r: Result<(), Error>)
    requires KnownOk(d) && Grounded(d.graph) && SanityChecks(v).Ok? && v.hash !in d.graph
    requires !AllInserted(d.graph, v.parents)
    ensures r == Check(d, v) <==> IsCheckOutcome(d, v, r)
  {
    hide Selection, Filter;
    var unknown, waiting := Elements(v.parents) - d.vertex.Keys, d.vertex.Keys - d.graph.Keys;
    FilterSelects(v.parents, unknown);
    FilterSelects(v.parents, waiting);
    forall ms | Selection(ms, v.parents, unknown) ensures ms == Filter(v.parents, unknown) {
      SelectionIsFilter(ms, v.parents, unknown);
    }
    forall ms | Selection(ms, v.parents, waiting) ensures ms == Filter(v.parents, waiting) {
      SelectionIsFilter(ms, v.parents, waiting);
    }
  }

  lemma FromSearch(d: Dag, v: Vertex, r: Result<(), Error>)
    requires Grounded(d.graph) && KnownOk(d) && SanityChecks(v).Ok? && v.hash !in d.graph
    requires AllInserted(d.graph, v.parents) && AllInserted(d.vertex, v.parents)
    requires 1 + MaxHeight(d.vertex, v.parents) == v.height <==> HeightIsNext(d.graph, v)
    requires r == Err(BadHeight(1 + MaxHeight(d.vertex, v.parents), v.height)) <==>
             && r.Err? && r.error.BadHeight? && r.error.found == v.height
             && (exists p :: p in v.parents && r.error.expected == 1 + d.graph[p].height)
             && (forall p :: p in v.parents ==> r.error.expected >= 1 + d.graph[p].height)
    requires ActiveConstraints(d.vertex, d.graph, d.state, v) == SearchResult(d, v.parents)
    ensures r == Check(d, v) <==> IsCheckOutcome(d, v, r)
  {
    hide HasConflict, OpenAll, OpenConstraints, Antichain, HitsRejected, MaxHeight, HeightIsNext, Grounded, DecidedIn,
         ActiveConstraints, Selection;
    CheckUnfolds(d, v);
  }

  /** The checks answer that and nothing else. */
  lemma CheckOutcome(d: Dag, v: Vertex, r: Result<(), Error>)
    requires WellFormed(d)
    ensures r == Check(d, v) <==> IsCheckOutcome(d, v, r)
  {
    hide StateOk, ChildrenOk, FrontierOk, ChitsOk, KnownOk, HasConflict, OpenAll, OpenConstraints, Antichain,
         HitsRejected, MaxHeight, HeightIsNext, Grounded, DecidedIn, ActiveConstraints, Selection, Filter;
    if SanityChecks(v).Ok? && v.hash !in d.graph {
      if AllInserted(d.graph, v.parents) {
        KnownToo(d, v.parents);
        ExpectedHeight(d, v, r);
        SearchIsResult(d, v);
        FromSearch(d, v, r);
      } else {
        AwaitedParents(d, v, r);
      }
    }
  }

  // ----- events -----

  /** `order` is the order in which the active ancestors are walked, among the several orders
      by height a hash set may yield. */
  datatype Event =
    | Submit(v: Vertex)
    | Vote(h: VertexHash, preferred: bool, order: seq<VertexHash>)

  function MapChild(ch: map<VertexHash, set<VertexHash>>, h: VertexHash, ps: seq<VertexHash>)
    : map<VertexHash, set<VertexHash>>
  {
    map p | p in ch.Keys + Elements(ps) :: (if p in ch then ch[p] else {}) + (if p in ps then {h} else {})
  }

  /** A vertex which cannot be inserted yet is remembered, and known as a child. */
  function Learn(d: Dag, v: Vertex): Dag {
    d.(vertex := d.vertex[v.hash := v], children := MapChild(d.children, v.hash, v.parents))
  }

  function WithEntry(ch: map<VertexHash, set<VertexHash>>, h: VertexHash): map<VertexHash, set<VertexHash>> {
    if h in ch then ch else ch[h := {}]
  }

  ghost function Insert(d: Dag, v: Vertex): Dag
    requires Joins(d.graph, v)
  {
    d.(
      vertex := d.vertex[v.hash := v],
      graph := With(d.graph, v),
      pending := d.pending[v.hash := v],
      children := MapChild(WithEntry(d.children, v.hash), v.hash, v.parents),
      state := InsertState(d.graph, d.state, v),
      frontier := (d.frontier - Elements(v.parents))[v.hash := v])
  }

  ghost function TryInsert(d: Dag, v: Vertex): Dag
    requires WellFormed(d)
  {
    CheckMeaning(d, v);
    if Check(d, v).Ok? then Insert(d, v)
    else if AwaitsParents(Check(d, v)) then Learn(d, v)
    else d
  }

  /** All constraints committed to by a sequence of vertices, in order. */
  ghost function Commitments(g: Graph, order: seq<VertexHash>): seq<Constraint> {
    if order == [] then []
    else
      var h := order[|order| - 1];
      Commitments(g, order[..|order| - 1]) + if h in g then ConstraintSeq(g[h].parents) else []
  }

  /** First occurrences only. */
  function Unique(cs: seq<Constraint>): seq<Constraint> {
    if cs == [] then []
    else
      var rest, last := cs[..|cs| - 1], cs[|cs| - 1];
      Unique(rest) + if last in rest then [] else [last]
  }

  function OnlyUndecided(st: State, cs: seq<Constraint>): seq<Constraint> {
    if cs == [] then []
    else OnlyUndecided(st, cs[..|cs| - 1]) + if Undecided(st, cs[|cs| - 1]) then [cs[|cs| - 1]] else []
  }

  /** The constraints a vote on `v` walks, in order, ending with the unity of `v`. */
  ghost function VoteList(g: Graph, st: State, v: Vertex, order: seq<VertexHash>): seq<Constraint> {
    OnlyUndecided(st, Unique(Commitments(g, order) + ConstraintSeq(v.parents))) + [Unity(v.hash)]
  }

  function Award(st: State, u: Constraint): State {
    if u.Key() in st then st[u.Key() := st[u.Key()].(chit := st[u.Key()].chit[u := true])] else st
  }

  ghost function RecordVote(d: Dag, h: VertexHash, preferred: bool, order: seq<VertexHash>): Dag
    requires Grounded(d.graph) && h in d.pending
  {
    var st := if preferred then Award(d.state, Unity(h)) else d.state;
    d.(pending := d.pending - {h},
       state := VoteAll(d.cfg, d.graph, st, VoteList(d.graph, st, d.pending[h], order), preferred))
  }

  ghost function Apply(d: Dag, e: Event): Dag
    requires WellFormed(d)
  {
    match e
    case Submit(v) => TryInsert(d, v)
    case Vote(h, preferred, order) => if h in d.pending then RecordVote(d, h, preferred, order) else d
  }

  ghost predicate SortedByHeight(g: Graph, order: seq<VertexHash>) {
    forall i, j :: 0 <= i < j < |order| && order[i] in g && order[j] in g ==> g[order[i]].height <= g[order[j]].height
  }

  /** A vertex waiting for a result has parents, all inserted. */
  lemma PendingParents(d: Dag, h: VertexHash)
    requires WellFormed(d) && h in d.pending
    ensures Grounded(d.graph) && d.pending[h].parents != [] && AllInserted(d.graph, d.pending[h].parents)
  {
    hide StateOk, ChildrenOk, FrontierOk, ChitsOk, Antichain, HeightIsNext, Accepted;
    assert VertexOk(d.cfg.genesis, d.graph, h);
  }

  /** The hash of a submitted vertex determines it; a vote finds the active ancestors of its
      vertex (the source panics otherwise) and walks them by height. */
  ghost predicate Legal(d: Dag, e: Event)
    requires WellFormed(d)
  {
    match e
    case Submit(v) => v.hash in d.vertex ==> d.vertex[v.hash] == v
    case Vote(h, _, order) =>
      h in d.pending ==> (
        PendingParents(d, h);
        && ActiveAncestors(d.vertex, d.graph, d.state, d.pending[h].parents) == Ok(Elements(order))
        && Distinct(order) && SortedByHeight(d.graph, order))
  }
}

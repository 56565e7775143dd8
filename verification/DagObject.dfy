/**
 The DAG as the mutable object of src/consensus/dag.rs: maps updated in place, loops over sets
 in any order, recursion over the constraint graph.  Every method is proved against the effect
 of its event on the value the maps represent, and a log ties the object to the runs.
 */
module DagObject {
  import opened Wrappers
  import opened Vertices
  import opened Ancestry
  import opened DagTypes
  import opened Search
  import opened Voting
  import opened Insertion
  import opened Dags
  import opened Steps
  import opened Runs
  import opened Ballots
  import opened Arrivals
  import opened ArrivalOrder
  import opened Overwriting
  import opened DagLoops

  class DAG {
    const cfg: Config
    var vertex: Graph
    var graph: Graph
    var pending: Graph
    var children: map<VertexHash, set<VertexHash>>
    var state: State
    var frontier: Graph

    /** The genesis vertex and the events so far. */
    ghost const v0: Vertex
    ghost var log: seq<Event>

    /** The value the maps represent. */
    function View(): Dag
      reads this
    {
      Dag(cfg, vertex, graph, pending, children, state, frontier)
    }

    /** The object is where a run from genesis leads. */
    ghost predicate Valid()
      reads this
    {
      cfg.Valid() && IsGenesis(cfg, v0) && IsRun(cfg, v0, log) && View() == Run(cfg, v0, log)
    }

    constructor Empty(config: Config, ghost genesis: Vertex)
      ensures View() == EmptyDag(config) && v0 == genesis && log == []
    {
      cfg := config;
      vertex, graph, pending, children, state, frontier := map[], map[], map[], map[], map[], map[];
      v0, log := genesis, [];
    }

    /** Marks initial constraints as accepted. */
    method FinalizeInitial(cs: seq<Constraint>)
      requires forall c :: c in cs ==> c.Key() in state
      modifies this`state
      ensures state == Finalized(old(state), cs)
    {
      var i := 0;
      assert cs[..0] == [];
      while i < |cs|
        invariant 0 <= i <= |cs|
        invariant state.Keys == old(state).Keys && state == Finalized(old(state), cs[..i])
      {
        var c := cs[i];
        assert c in cs && cs[..i + 1][..i] == cs[..i];
        state := state[c.Key() := state[c.Key()].(decision := state[c.Key()].decision[c := true])];
        i := i + 1;
      }
      assert cs[..|cs|] == cs;
    }

    /** Inserts the genesis vertex and takes its constraints as decided. */
    method InsertGenesis(genesis: Vertex)
      requires View() == EmptyDag(cfg) && IsGenesis(cfg, genesis)
      modifies this`vertex, this`graph, this`pending, this`children, this`state, this`frontier
      ensures View() == Genesis(cfg, genesis)
    {
      hide Grounded, StateOk, Joins, Insert;
      FirstInsert(cfg, genesis);
      InsertVertex(genesis);
      var unity := Unity(genesis.hash);
      assert View() == Insert(EmptyDag(cfg), genesis);
      assert state == map[unity.Key() := NewConflictSet(unity, {})];
      pending := pending - {genesis.hash};
      var cs := ParentConstraints(genesis);
      cs := cs + [unity];
      assert ConstraintSeq([]) == [];
      assert cs == [unity];
      FinalizeInitial(cs);
      SameMap(pending, map[]);
    }

    /** A DAG with the genesis vertex decided; invalid thresholds are refused. */
    static method New(config: Config, genesis: Vertex) returns (r: Result<DAG, Error>)
      requires IsGenesis(config, genesis)
      ensures r.Ok? <==> config.threshSafeEarlyCommit <= config.threshAccepted
      ensures r.Err? ==> r.error == BadCfgThreshold
      ensures r.Ok? ==> fresh(r.value) && r.value.Valid() && r.value.v0 == genesis && r.value.log == []
      ensures r.Ok? ==> r.value.cfg == config && r.value.View() == Genesis(config, genesis)
    {
      hide Run, IsRun, Genesis;
      if !config.Valid() {
        return Err(BadCfgThreshold);
      }
      var dag := new DAG.Empty(config, genesis);
      dag.InsertGenesis(genesis);
      RunOfNothing(config, genesis);
      return Ok(dag);
    }

    // ----- bookkeeping of children -----

    /** Adds a vertex as a known child to each of its parents. */
    method MapChildren(vhash: VertexHash, parents: seq<VertexHash>)
      modifies this`children
      ensures children == MapChild(old(children), vhash, parents)
    {
      hide MapChild;
      var i := 0;
      MapChildNone(children, vhash);
      assert parents[..0] == [];
      while i < |parents|
        invariant 0 <= i <= |parents|
        invariant children == MapChild(old(children), vhash, parents[..i])
      {
        MapChildOne(old(children), vhash, parents, i);
        var parent := parents[i];
        if parent in children {
          children := children[parent := children[parent] + {vhash}];
        } else {
          children := children[parent := {vhash}];
        }
        i := i + 1;
      }
      assert parents[..|parents|] == parents;
    }

    // ----- registering constraints -----

    /** Registers `c` as a child of each of the given constraint parents. */
    method AddToParents(c: Constraint, parents: set<Constraint>)
      requires ParentEntries(state, parents) && KeysMatch(state)
      modifies this`state
      ensures state == AddChild(old(state), c, parents)
    {
      hide KeysMatch, AddChild;
      var todo := parents;
      AddChildNone(state, c);
      assert parents - todo == {};
      while todo != {}
        invariant todo <= parents
        invariant state == AddChild(old(state), c, parents - todo)
        decreases todo
      {
        var parent :| parent in todo;
        AddChildOne(old(state), c, parents - todo, parent);
        assert parents - (todo - {parent}) == parents - todo + {parent};
        var conflictSet := state[parent.Key()];
        if parent in conflictSet.children {
          conflictSet := conflictSet.(children := conflictSet.children[parent := conflictSet.children[parent] + {c}]);
        } else {
          conflictSet := conflictSet.(children := conflictSet.children[parent := {c}]);
        }
        state := state[parent.Key() := conflictSet];
        todo := todo - {parent};
      }
      assert parents - todo == parents;
    }

    /** Registers `c` as a child of its constraint parents and gives it a conflict set, unless it
        or its opposite has one. */
    method RegisterConstraint(c: Constraint)
      requires c.left in vertex && c.right in vertex
      requires ParentEntries(state, ConstraintParents(vertex, c)) && KeysMatch(state)
      modifies this`state
      ensures OneOrder({c}) && state == Register(vertex, old(state), {c})
    {
      hide KeysMatch, Register;
      var parents := PC(vertex[c.left].parents) + PC(vertex[c.right].parents);
      var rejected := exists p ::
        p in parents && p.Key() in state && p in state[p.Key()].decision && !state[p.Key()].decision[p];
      assert rejected == HasRejectedParent(vertex, state, c);
      AddToParents(c, parents);
      RegisterOne(vertex, old(state), c);
      if c.Key() !in state {
        var created := NewConflictSet(c, parents);
        if rejected {
          created := created.(decision := created.decision[c := false]);
        }
        state := state[c.Key() := created];
      }
    }

    // ----- inserting -----

    /** Registers all constraints of a parent list, in any order. */
    method RegisterPairs(v: Vertex)
      requires Grounded(graph) && StateOk(graph, state) && Joins(graph, v)
      requires Extends(With(graph, v), vertex)
      modifies this`state
      ensures OneOrder(PC(v.parents)) && state == Register(With(graph, v), old(state), PC(v.parents))
    {
      hide Grounded, StateOk, Register, KeysMatch, ParentEntries;
      var cs := ParentConstraints(v);
      var todo := Elements(cs);
      ghost var g', all := With(graph, v), PC(v.parents);
      ConstraintSeqIsPC(v.parents);
      ParentListOneOrder(v.parents);
      assert all - todo == {};
      RegisterNothing(g', state);
      while todo != {}
        invariant todo <= all && OneOrder(all - todo)
        invariant state == Register(g', old(state), all - todo)
        decreases todo
      {
        var c :| c in todo;
        ghost var done := all - todo;
        assert all - (todo - {c}) == done + {c};
        PairReady(graph, old(state), v, done, c);
        RegisterConstraint(c);
        SameRegister(vertex, g', Register(g', old(state), done), c);
        RegisterOneMore(g', old(state), done, c);
        todo := todo - {c};
      }
      assert all - todo == all;
    }

    /** Vertices which got a child leave the frontier. */
    method LeaveFrontier(parents: seq<VertexHash>)
      modifies this`frontier
      ensures frontier == old(frontier) - Elements(parents)
    {
      var i := 0;
      assert frontier - Elements(parents[..0]) == frontier;
      while i < |parents|
        invariant 0 <= i <= |parents|
        invariant frontier == old(frontier) - Elements(parents[..i])
      {
        assert parents[..i + 1] == parents[..i] + [parents[i]];
        assert old(frontier) - Elements(parents[..i]) - {parents[i]} == old(frontier) - Elements(parents[..i + 1]);
        frontier := frontier - {parents[i]};
        i := i + 1;
      }
      assert parents[..|parents|] == parents;
    }

    /** Registers the constraints of a vertex: those of its parents, then its own unity. */
    method RegisterConstraints(v: Vertex)
      requires Grounded(graph) && StateOk(graph, state) && Joins(graph, v)
      requires Extends(With(graph, v), vertex)
      modifies this`state
      ensures state == InsertState(graph, old(state), v)
    {
      hide Grounded, StateOk, Joins, Register, KeysMatch, ParentEntries, OneOrder, PC;
      ghost var g', st := With(graph, v), state;
      RegisterPairs(v);
      var unity := Unity(v.hash);
      UnityReady(graph, st, v);
      RegisterConstraint(unity);
      SameRegister(vertex, g', Register(g', st, PC(v.parents)), unity);
    }

    /** Adds an entry to the child map, if there is none. */
    method EnsureEntry(vhash: VertexHash)
      modifies this`children
      ensures children == WithEntry(old(children), vhash)
    {
      if vhash !in children {
        children := children[vhash := {}];
      }
    }

    /** Inserts a vertex without checking it. */
    method InsertVertex(v: Vertex)
      requires Grounded(graph) && StateOk(graph, state) && Joins(graph, v)
      requires Extends(graph, vertex)
      modifies this`vertex, this`graph, this`pending, this`children, this`state, this`frontier
      ensures View() == Insert(old(View()), v)
    {
      hide Grounded, StateOk, Joins, MapChild, InsertState, Extends, WithEntry;
      KnownExtends(graph, vertex, v);
      vertex := vertex[v.hash := v];
      EnsureEntry(v.hash);
      RegisterConstraints(v);
      MapChildren(v.hash, v.parents);
      graph := graph[v.hash := v];
      pending := pending[v.hash := v];
      LeaveFrontier(v.parents);
      frontier := frontier[v.hash := v];
    }

    // ----- searching -----

    /** Sorts inserted vertices by ascending height. */
    method SortByHeight(found: set<VertexHash>) returns (sorted: seq<VertexHash>)
      requires forall h :: h in found ==> h in graph
      ensures Elements(sorted) == found && Distinct(sorted) && SortedByHeight(graph, sorted)
    {
      sorted := [];
      var todo := found;
      while todo != {}
        invariant todo <= found && Elements(sorted) == found - todo
        invariant Distinct(sorted) && SortedByHeight(graph, sorted)
        invariant forall a :: a in sorted ==> a in found
        invariant forall a, b :: a in sorted && b in todo ==> graph[a].height <= graph[b].height
        decreases todo
      {
        LowestExists(graph, todo);
        var lowest :| lowest in todo && forall h :: h in todo ==> graph[lowest].height <= graph[h].height;
        assert lowest !in Elements(sorted);
        assert Elements(sorted + [lowest]) == Elements(sorted) + {lowest};
        sorted, todo := sorted + [lowest], todo - {lowest};
      }
    }

    /** The undecided ancestors of a vertex with parents `ps`, by ascending height. */
    method GetActiveAncestors(ps: seq<VertexHash>) returns (r: Result<seq<VertexHash>, Error>)
      requires Grounded(graph) && ps != [] && (forall p :: p in ps && p in vertex ==> p in graph)
      ensures r.Ok? ==> ActiveAncestors(vertex, graph, state, ps) == Ok(Elements(r.value))
      ensures r.Ok? ==> Distinct(r.value) && SortedByHeight(graph, r.value)
      ensures r.Err? ==> ActiveAncestors(vertex, graph, state, ps) == Err(r.error)
    {
      var found := ActiveAncestors(vertex, graph, state, ps);
      if found.Err? {
        return Err(found.error);
      }
      ActiveInserted(vertex, graph, state, ps);
      var sorted := SortByHeight(found.value);
      return Ok(sorted);
    }

    /** The undecided constraints committed to by a vertex and its active ancestors, each once, in
        the order in which the ancestors are met. */
    method GetActiveAncestorConstraints(v: Vertex)
      returns (r: Result<seq<Constraint>, Error>, ghost order: seq<VertexHash>)
      requires Grounded(graph) && v.parents != [] && (forall p :: p in v.parents && p in vertex ==> p in graph)
      requires Extends(graph, vertex)
      ensures r.Ok? ==>
                && ActiveAncestors(vertex, graph, state, v.parents) == Ok(Elements(order))
                && Distinct(order) && SortedByHeight(graph, order)
                && r.value == OnlyUndecided(state, Unique(Commitments(graph, order) + ConstraintSeq(v.parents)))
      ensures r.Err? ==> ActiveAncestors(vertex, graph, state, v.parents) == Err(r.error)
    {
      hide Grounded, OnlyUndecided, Unique, SortedByHeight, Distinct;
      var ancestors := GetActiveAncestors(v.parents);
      if ancestors.Err? {
        return Err(ancestors.error), [];
      }
      order := ancestors.value;
      ActiveInserted(vertex, graph, state, v.parents);
      var committed: seq<Constraint>, i := [], 0;
      assert order[..0] == [];
      while i < |ancestors.value|
        invariant 0 <= i <= |order|
        invariant committed == Commitments(graph, order[..i])
      {
        assert order[i] in Elements(order);
        assert order[..i + 1][..i] == order[..i];
        var next := ParentConstraints(vertex[ancestors.value[i]]);
        committed := committed + next;
        i := i + 1;
      }
      assert order[..|order|] == order;
      var own := ParentConstraints(v);
      return Ok(OnlyUndecided(state, Unique(committed + own))), order;
    }

    // ----- checking a vertex -----

    /** The parents not known, and those known but not inserted. */
    method UninsertedParents(parents: seq<VertexHash>) returns (missing: seq<VertexHash>, waiting: seq<VertexHash>)
      ensures missing == Filter(parents, Elements(parents) - vertex.Keys)
      ensures waiting == Filter(parents, vertex.Keys - graph.Keys)
    {
      hide Filter;
      missing, waiting := [], [];
      var i := 0;
      assert parents[..0] == [];
      while i < |parents|
        invariant 0 <= i <= |parents|
        invariant missing == Filter(parents[..i], Elements(parents) - vertex.Keys)
        invariant waiting == Filter(parents[..i], vertex.Keys - graph.Keys)
      {
        assert parents[..i + 1] == parents[..i] + [parents[i]];
        FilterOneMore(parents[..i], parents[i], Elements(parents) - vertex.Keys);
        FilterOneMore(parents[..i], parents[i], vertex.Keys - graph.Keys);
        if parents[i] !in vertex {
          missing := missing + [parents[i]];
        } else if parents[i] !in graph {
          waiting := waiting + [parents[i]];
        }
        i := i + 1;
      }
      assert parents[..|parents|] == parents;
    }

    /** Whether a list of constraints holds a constraint together with its conflict. */
    static method FindConflict(cs: seq<Constraint>) returns (found: bool)
      ensures found == HasConflict(Elements(cs))
    {
      var i := 0;
      while i < |cs|
        invariant 0 <= i <= |cs|
        invariant forall j :: 0 <= j < i ==> cs[j].IsUnity() || cs[j].Flip() !in cs
      {
        var conflict := cs[i].Conflict();
        if conflict.Some? && conflict.value in cs {
          return true;
        }
        i := i + 1;
      }
      return false;
    }

    /** The checks before an insertion. */
    method CheckVertex(v: Vertex) returns (r: Result<(), Error>)
      requires WellFormed(View())
      ensures r == Check(View(), v) && IsCheckOutcome(View(), v, r)
    {
      hide WellFormed, MaxHeight, HasConflict, Filter, OnlyUndecided, Unique, Commitments, ConstraintSeq,
           SortedByHeight, Grounded, Extends, Committed, PC, IsCheckOutcome;
      GraphOf(View());
      KnownIsExtension(View());
      CheckOutcome(View(), v, Check(View(), v));
      var sanity := SanityChecks(v);
      if sanity.Err? {
        return Err(InvalidVertex(sanity.error));
      }
      if v.hash in graph {
        return Err(AlreadyInserted);
      }
      var missing, waiting := UninsertedParents(v.parents);
      if missing != [] {
        return Err(MissingParents(missing));
      }
      if waiting != [] {
        return Err(WaitingOnParents(waiting));
      }
      var expected := 1 + MaxHeight(vertex, v.parents);
      if expected != v.height {
        return Err(BadHeight(expected, v.height));
      }
      ghost var order;
      var constraints;
      constraints, order := GetActiveAncestorConstraints(v);
      if constraints.Err? {
        return Err(constraints.error);
      }
      ListIsActive(View(), v, order);
      var found := FindConflict(constraints.value);
      return if found then Err(ConflictingAncestors) else Ok(());
    }

    /** Inserts a vertex if it passes the checks, and returns its known children still waiting.
        A vertex whose parents are missing or waiting is remembered. */
    method TryInsert(v: Vertex) returns (r: Result<set<VertexHash>, Error>)
      requires Valid() && Legal(View(), Submit(v))
      modifies this
      ensures Valid() && log == old(log) + [Submit(v)]
      ensures View() == Next(old(View()), Submit(v))
      ensures r.Ok? <==> Passes(old(View()), v)
      ensures r.Ok? ==> v.hash in graph && v.hash in children && r.value == Waiting(View(), v.hash)
      ensures r.Ok? ==> r.value == set w | w in old(vertex) && v.hash in old(vertex)[w].parents && w !in old(graph)
      ensures r.Err? ==> IsCheckOutcome(old(View()), v, Err(r.error))
    {
      hide WellFormed, Legal, Run, IsRun, Passes, Check, Insert, Learn, Grounded, StateOk, Joins, MapChild, MustWait,
           Extends, IsCheckOutcome;
      ghost var d := View();
      GraphOf(d);
      CheckMeaning(d, v);
      ExtendRun(cfg, v0, log, Submit(v));
      var check := CheckVertex(v);
      if check.Err? {
        TryInsertFails(d, v);
        if AwaitsParents(check) {
          MapChildren(v.hash, v.parents);
          vertex := vertex[v.hash := v];
          LearnIs(d, v);
        }
        log := log + [Submit(v)];
        return Err(check.error);
      }
      TryInsertPasses(d, v);
      KnownIsExtension(d);
      InsertVertex(v);
      log := log + [Submit(v)];
      InsertedEntry(d, v);
      assert v.hash in With(d.graph, v);
      InsertParts(d, v);
      WaitingChildren(d, v);
      return Ok(set w | w in children[v.hash] && w !in graph);
    }

    // ----- voting -----

    /** Marks a constraint and its progeny as rejected. */
    method RejectProgeny(c: Constraint)
      requires Grounded(graph) && StateOk(graph, state) && c.Key() in state
      modifies this`state
      ensures state == RejectAll(old(state), Reach(graph, c))
      decreases Reach(graph, c)
    {
      hide StateOk, Reach, Kids;
      EntryOf(graph, state, c);
      var conflictSet := state[c.Key()];
      var todo := conflictSet.children[c];
      ghost var kids := todo;
      state := state[c.Key() := conflictSet.(decision := conflictSet.decision[c := false])];
      RejectJust(old(state), c);
      assert kids - todo == {};
      assert ReachAll(graph, {}) == {};
      assert {c} + {} == {c};
      while todo != {}
        invariant todo <= kids
        invariant state == RejectAll(old(state), {c} + ReachAll(graph, kids - todo))
        decreases todo
      {
        var child :| child in todo;
        ReachOfKid(graph, c, child);
        ShapeKeepsStateOk(graph, old(state), state);
        KidKey(graph, state, c, child);
        RejectProgeny(child);
        RejectOneMore(graph, old(state), c, kids - todo, child);
        assert kids - (todo - {child}) == kids - todo + {child};
        todo := todo - {child};
      }
      assert kids - todo == kids;
      ReachUnfolds(graph, c);
    }

    /** Updates the state variables of one constraint on a positive result. */
    method UpdateVariables(c: Constraint)
      requires Grounded(graph) && StateOk(graph, state) && c.Key() in state
      modifies this`state
      ensures state == Tally(graph, old(state), c)
    {
      hide Grounded, StateOk, Supporters, Reg, ConstraintParents, ProgenyWithChits, Kids, Reach;
      EntryOf(graph, state, c);
      ConfidenceCountsVertices(graph, state, c);
      var confidence := |ProgenyWithChits(graph, state, c)|;
      var opposing := 0;
      var conflict := c.Conflict();
      if conflict.Some? {
        SameKey(c);
        ConfidenceCountsVertices(graph, state, conflict.value);
        opposing := |ProgenyWithChits(graph, state, conflict.value)|;
      }
      var s := state[c.Key()];
      s := s.(confidence := s.confidence[c := confidence]);
      if confidence > opposing {
        s := s.(preferred := c);
      }
      if s.last != c {
        s := s.(last := c, count := s.count[c := 1]);
      } else {
        s := s.(count := s.count[c := s.count[c] + 1]);
      }
      state := state[c.Key() := s];
    }

    /** Accepts a constraint and rejects its conflict, if any. */
    method AcceptConstraint(c: Constraint)
      requires Grounded(graph) && StateOk(graph, state) && c.Key() in state
      modifies this`state
      ensures state == Accept(graph, old(state), c)
    {
      hide Grounded, StateOk, Reach, RejectAll, SameShape;
      var s := state[c.Key()];
      state := state[c.Key() := s.(decision := s.decision[c := true], preferred := c)];
      MarkAcceptedShape(old(state), c);
      ShapeKeepsStateOk(graph, old(state), state);
      var conflict := c.Conflict();
      if conflict.Some? {
        SameKey(c);
        RejectProgeny(conflict.value);
      }
    }

    /** Counts a positive result for one constraint of the ancestry, and decides on it if its
        count suffices: at the threshold, or earlier when it has no conflict and its recorded
        parents are accepted. */
    method RecordFor(c: Constraint)
      requires Grounded(graph) && StateOk(graph, state) && c.Key() in state
      modifies this`state
      ensures state == VoteFor(cfg, graph, old(state), c)
      ensures Decides(cfg, graph, old(state), c, state)
    {
      hide Grounded, StateOk, Accept, SameShape, Decides;
      VoteForDecides(cfg, graph, state, c);
      UpdateVariables(c);
      EntryOf(graph, old(state), c);
      assert Count(state, c) == state[c.Key()].count[c];
      TallyShape(graph, old(state), c);
      ShapeKeepsStateOk(graph, old(state), state);
      SameKey(c);
      var hasConflict := c.Conflict().Some? && c.Conflict().value.Key() in state;
      var count, parents := state[c.Key()].count[c], state[c.Key()].parents[c];
      var parentsAccepted := forall p :: p in parents ==>
        p.Key() in state && p in state[p.Key()].decision && state[p.Key()].decision[p];
      if count >= cfg.threshAccepted || (parentsAccepted && !hasConflict && count >= cfg.threshSafeEarlyCommit) {
        AcceptConstraint(c);
      }
    }

    /** A negative result resets the counter of a constraint of the ancestry. */
    method RecordAgainst(c: Constraint)
      requires c.Key() in state
      modifies this`state
      ensures state == VoteAgainst(old(state), c)
    {
      var s := state[c.Key()];
      state := state[c.Key() := s.(count := s.count[c := 0])];
    }

    /** Records a result for each of the given constraints in turn. */
    method RecordAll(cs: seq<Constraint>, preferred: bool)
      requires Grounded(graph) && StateOk(graph, state) && HaveKeys(state, cs)
      modifies this`state
      ensures state == VoteAll(cfg, graph, old(state), cs, preferred)
    {
      hide Grounded, StateOk, VoteFor, VoteAgainst;
      var i := 0;
      assert cs[..0] == [];
      while i < |cs|
        invariant 0 <= i <= |cs|
        invariant state == VoteAll(cfg, graph, old(state), cs[..i], preferred)
      {
        VoteAllStateOk(cfg, graph, old(state), cs[..i], preferred);
        assert cs[..i + 1][..i] == cs[..i] && cs[..i + 1][i] == cs[i] && |cs[..i + 1]| == i + 1;
        if preferred {
          RecordFor(cs[i]);
        } else {
          RecordAgainst(cs[i]);
        }
        i := i + 1;
      }
      assert cs[..|cs|] == cs;
    }

    /** Records the result of a preference query for a vertex waiting for one.  If the search for
        its ancestors fails, the source panics, having done half of the work. */
    method RecordQueryResult(vhash: VertexHash, preferred: bool) returns (r: Outcome, ghost order: seq<VertexHash>)
      requires Valid()
      modifies this
      ensures r.Panicked? <==> !CanRecord(old(View()), vhash)
      ensures r.Done? <==> vhash in old(pending) && CanRecord(old(View()), vhash)
      ensures !r.Panicked? ==> Valid()
      ensures r.Done? ==> Legal(old(View()), Vote(vhash, preferred, order))
      ensures r.Done? ==> log == old(log) + [Vote(vhash, preferred, order)]
      ensures r.Done? ==> View() == Next(old(View()), Vote(vhash, preferred, order))
      ensures r.Refused? ==> View() == old(View()) && log == old(log)
      ensures r.Refused? ==>
                r.error ==
                if vhash in graph then AlreadyRecorded else if vhash in vertex then WaitingOnInsert else NotFound
      ensures r.Panicked? ==> View() == Torn(old(View()), vhash, preferred) && log == old(log)
    {
      hide WellFormed, Legal, Run, IsRun, Grounded, StateOk, Extends, SortedByHeight, Distinct, VoteAll, SearchFor,
           ActiveAncestors, ConstraintSeq, Award, Unique, OnlyUndecided;
      ghost var d := View();
      order := [];
      if vhash in pending {
        var v := pending[vhash];
        PendingInserted(d, vhash);
        GraphOf(d);
        AwardedFacts(d, vhash, preferred);
        PendingVertex(d, vhash);
        SearchAfterAward(d, vhash, preferred);
        pending := pending - {vhash};
        var unity := Unity(vhash);
        if preferred {
          state := Award(state, unity);
        }
        assert state == Awarded(d, vhash, preferred);
        var cs;
        cs, order := GetActiveAncestorConstraints(v);
        if cs.Err? {
          return Panicked, [];
        }
        VoteIsLegal(d, vhash, preferred, order);
        ExtendRun(cfg, v0, log, Vote(vhash, preferred, order));
        VoteListRegistered(d, vhash, state, order);
        RecordAll(cs.value + [unity], preferred);
        log := log + [Vote(vhash, preferred, order)];
        return Done, order;
      } else if vhash in graph {
        return Refused(AlreadyRecorded), [];
      } else if vhash in vertex {
        return Refused(WaitingOnInsert), [];
      } else {
        return Refused(NotFound), [];
      }
    }

    // ----- retrying -----

    /** Tries to insert a known vertex again. */
    method Retry(vhash: VertexHash) returns (r: Result<set<VertexHash>, Error>)
      requires Valid() && vhash in vertex
      modifies this
      ensures Valid() && vertex == old(vertex) && log == old(log) + [Submit(vertex[vhash])]
      ensures r.Ok? ==> vhash !in old(graph) && graph.Keys == old(graph).Keys + {vhash}
      ensures r.Ok? ==> vhash in children && r.value == Waiting(View(), vhash)
      ensures r.Err? ==> graph == old(graph)
      ensures Ready(View()) <= Ready(old(View())) - {vhash} + if r.Ok? then r.value else {}
      ensures Ready(old(View())) - {vhash} <= Ready(View())
      ensures r.Ok? ==> r.value !! Ready(old(View()))
      ensures r.Err? ==> vhash !in Ready(old(View()))
    {
      hide WellFormed, Legal, Run, IsRun, Passes, Check, Next, Ready;
      ghost var d := View();
      KnownIsLegal(d, vhash);
      GraphOf(d);
      RetryEffect(d, vhash);
      ReadyAfterSubmit(d, vertex[vhash]);
      WaitingNotReady(d, vertex[vhash]);
      if vhash in Ready(d) { ReadyMeans(d, vertex[vhash]); }
      r := TryInsert(vertex[vhash]);
    }

    /** Tries to insert the given vertices again, and after each insertion its known children
        still waiting. */
    method RetryPending(hashes: seq<VertexHash>) returns (successes: set<VertexHash>)
      requires Valid()
      modifies this
      ensures Valid() && vertex == old(vertex) && old(log) <= log
      ensures successes !! old(graph).Keys && graph.Keys == old(graph).Keys + successes
      ensures Ready(View()) == Ready(old(View())) - Elements(hashes)
      ensures Resubmits(vertex, log[|old(log)|..])
      ensures VoteFree(old(log)) ==> VoteFree(log)
      ensures cfg.genesis !in hashes ==> Submitted(log) == Submitted(old(log))
    {
      hide WellFormed, Legal, Run, IsRun, Ready, Submitted, VoteFree, Grounded, First, Next, IsGenesis;
      var queue := hashes;
      successes := {};
      ReadyKnown(View());
      while queue != []
        invariant Valid() && vertex == old(vertex) && old(log) <= log
        invariant successes !! old(graph).Keys && graph.Keys == old(graph).Keys + successes
        invariant Grounded(graph) && Ready(View()) <= (Ready(old(View())) - Elements(hashes)) + Elements(queue)
        invariant Ready(old(View())) - Elements(hashes) <= Ready(View())
        invariant (Ready(old(View())) - Elements(hashes)) !! Elements(queue)
        invariant Resubmits(vertex, log[|old(log)|..])
        invariant VoteFree(old(log)) ==> VoteFree(log)
        invariant cfg.genesis !in hashes ==> cfg.genesis !in Elements(queue) && Submitted(log) == Submitted(old(log))
        decreases vertex.Keys - graph.Keys, |queue|
      {
        var vhash := queue[|queue| - 1];
        queue := queue[..|queue| - 1];
        ReadyKnown(View());
        if vhash in vertex {
          SubmittedAgain(cfg, v0, log, vhash);
          ghost var before := log;
          var waiting := Retry(vhash);
          assert log[|old(log)|..] == before[|old(log)|..] + [Submit(vertex[vhash])];
          if waiting.Ok? {
            successes := successes + {vhash};
            ReadyKnown(View());
            queue := PushAll(queue, waiting.value);
          }
        }
      }
    }
  }
}

/** Runs from genesis (src/consensus/task.rs), and what holds of any two states of one run. */
module Runs {
  import opened Wrappers
  import opened Vertices
  import opened Ancestry
  import opened DagTypes
  import opened Search
  import opened ActiveSets
  import opened Voting
  import opened Insertion
  import opened Dags
  import opened Steps

  // ----- runs -----

  ghost function First(cfg: Config, v0: Vertex): (d: Dag)
    requires cfg.Valid() && IsGenesis(cfg, v0)
    ensures WellFormed(d) && d.cfg == cfg
  {
    GenesisWellFormed(cfg, v0);
    Genesis(cfg, v0)
  }

  /** At the start only genesis is decided, and nothing is counted or has a chit. */
  lemma FirstState(cfg: Config, v0: Vertex, c: Constraint)
    requires cfg.Valid() && IsGenesis(cfg, v0)
    ensures Dec(First(cfg, v0).state, c) == if c == Unity(cfg.genesis) then Some(true) else None
    ensures Count(First(cfg, v0).state, c) == 0 && !Chit(First(cfg, v0).state, c)
  {
    hide WellFormed;
    var u := Unity(v0.hash);
    KeyIdentifiesConflictSet(c, u);
    assert First(cfg, v0).state == GenesisState(u);
    assert GenesisState(u)[u.Key()].decision == map[u := true];
  }

  lemma ApplyKeepsConfig(d: Dag, e: Event)
    requires WellFormed(d)
    ensures Apply(d, e).cfg == d.cfg
  {
    hide WellFormed, Check, InsertState, VoteAll, VoteList, With;
  }

  ghost function Next(d: Dag, e: Event): (d': Dag)
    requires WellFormed(d) && Legal(d, e)
    ensures WellFormed(d') && d'.cfg == d.cfg
  {
    ApplyWellFormed(d, e);
    ApplyKeepsConfig(d, e);
    Apply(d, e)
  }

  lemma NextIsApply(d: Dag, e: Event)
    requires WellFormed(d) && Legal(d, e)
    ensures Next(d, e) == Apply(d, e)
  {
    hide WellFormed, Legal, Apply;
  }

  ghost predicate IsRun(cfg: Config, v0: Vertex, evs: seq<Event>)
    requires cfg.Valid() && IsGenesis(cfg, v0)
    decreases |evs|, 0
  {
    evs == [] || (IsRun(cfg, v0, evs[..|evs| - 1]) && Legal(Run(cfg, v0, evs[..|evs| - 1]), evs[|evs| - 1]))
  }

  /** The state a run from genesis ends in. */
  ghost function Run(cfg: Config, v0: Vertex, evs: seq<Event>): (d: Dag)
    requires cfg.Valid() && IsGenesis(cfg, v0) && IsRun(cfg, v0, evs)
    ensures WellFormed(d) && d.cfg == cfg
    decreases |evs|, 1
  {
    if evs == [] then First(cfg, v0)
    else Next(Run(cfg, v0, evs[..|evs| - 1]), evs[|evs| - 1])
  }

  lemma {:induction false} PrefixIsRun(cfg: Config, v0: Vertex, evs: seq<Event>, n: nat)
    requires cfg.Valid() && IsGenesis(cfg, v0) && IsRun(cfg, v0, evs) && n <= |evs|
    ensures IsRun(cfg, v0, evs[..n])
    decreases |evs|
  {
    hide WellFormed, Legal, Next, First, Run;
    if n == |evs| {
      assert evs[..n] == evs;
    } else {
      var before := evs[..|evs| - 1];
      assert IsRun(cfg, v0, before);
      PrefixIsRun(cfg, v0, before, n);
      assert before[..n] == evs[..n];
    }
  }

  // ----- the cases of one event -----

  /** A submitted vertex which passes the checks is inserted and waits for a result; any other
      changes neither graph nor votes, and becomes known exactly if it is sane and its only fault
      is that a parent is not inserted. */
  lemma SubmitCases(d: Dag, v: Vertex)
    requires WellFormed(d)
    ensures Passes(d, v) ==> Joins(d.graph, v) && Apply(d, Submit(v)) == Insert(d, v)
    ensures Passes(d, v) ==>
              var d' := Apply(d, Submit(v));
              && d'.graph == d.graph[v.hash := v] && d'.vertex == d.vertex[v.hash := v]
              && d'.pending == d.pending[v.hash := v] && d'.cfg == d.cfg
    ensures !Passes(d, v) ==>
              && Apply(d, Submit(v)).graph == d.graph && Apply(d, Submit(v)).state == d.state
              && Apply(d, Submit(v)).pending == d.pending && Apply(d, Submit(v)).cfg == d.cfg
    ensures !Passes(d, v) ==>
              Apply(d, Submit(v)).vertex ==
              if SanityChecks(v).Ok? && v.hash !in d.graph && !AllInserted(d.graph, v.parents)
                then d.vertex[v.hash := v] else d.vertex
  {
    if Passes(d, v) { TryInsertPasses(d, v); } else { TryInsertFails(d, v); }
  }

  // ----- decisions are never withdrawn -----

  ghost predicate DecGrows(st: State, st': State) {
    forall c :: !Undecided(st, c) ==> !Undecided(st', c)
  }

  lemma {:induction false} VoteAllDecGrows(cfg: Config, g: Graph, st: State, cs: seq<Constraint>, preferred: bool)
    requires Grounded(g) && StateOk(g, st) && HaveKeys(st, cs)
    ensures DecGrows(st, VoteAll(cfg, g, st, cs, preferred))
  {
    if cs != [] {
      var rest, c := cs[..|cs| - 1], cs[|cs| - 1];
      VoteAllDecGrows(cfg, g, st, rest, preferred);
      VoteAllStateOk(cfg, g, st, rest, preferred);
      VoteDecGrows(cfg, g, VoteAll(cfg, g, st, rest, preferred), c, preferred);
    }
  }

  lemma VoteDecGrows(cfg: Config, g: Graph, st: State, c: Constraint, preferred: bool)
    requires Grounded(g) && StateOk(g, st) && c.Key() in st
    ensures DecGrows(st, VoteOn(cfg, g, st, c, preferred))
  {
    hide Grounded, StateOk, VoteFor, Accepts, Reach;
    KeysOfReg(g, st);
    forall d | !Undecided(st, d)
      ensures !Undecided(VoteOn(cfg, g, st, c, preferred), d)
    {
      if preferred { VoteForFacts(cfg, g, st, c, d); }
    }
  }

  lemma RecordDecGrows(d: Dag, h: VertexHash, preferred: bool, order: seq<VertexHash>)
    requires WellFormed(d) && h in d.pending
    ensures DecGrows(d.state, RecordVote(d, h, preferred, order).state)
  {
    PendingVertex(d, h);
    AwardFacts(d.graph, d.state, Unity(h));
    var st := if preferred then Award(d.state, Unity(h)) else d.state;
    VoteListRegistered(d, h, st, order);
    VoteAllDecGrows(d.cfg, d.graph, st, VoteList(d.graph, st, d.pending[h], order), preferred);
  }

  /** One event only adds vertices and decisions. */
  lemma SubmitGrows(d: Dag, v: Vertex)
    requires WellFormed(d)
    ensures Extends(d.graph, Apply(d, Submit(v)).graph)
    ensures DecGrows(d.state, Apply(d, Submit(v)).state)
  {
    hide WellFormed, Apply, Passes, Grounded, With, StateOk;
    GraphOf(d);
    SubmitCases(d, v);
    if Passes(d, v) {
      GrownGrounded(d.graph, v);
    } else {
    }
  }

  lemma VoteCases(d: Dag, h: VertexHash, preferred: bool, order: seq<VertexHash>)
    requires WellFormed(d)
    ensures Apply(d, Vote(h, preferred, order)) == if h in d.pending then RecordVote(d, h, preferred, order) else d
    ensures Apply(d, Vote(h, preferred, order)).graph == d.graph
    ensures Apply(d, Vote(h, preferred, order)).cfg == d.cfg
  {
  }

  lemma EventGrows(d: Dag, e: Event)
    requires WellFormed(d) && Legal(d, e)
    ensures Extends(d.graph, Next(d, e).graph)
    ensures DecGrows(d.state, Next(d, e).state)
  {
    hide WellFormed, Legal, Apply, RecordVote;
    match e
    case Submit(v) =>
      SubmitGrows(d, v);
    case Vote(h, preferred, order) =>
      VoteCases(d, h, preferred, order);
      if h in d.pending { RecordDecGrows(d, h, preferred, order); }
  }

  lemma RunStep(cfg: Config, v0: Vertex, evs: seq<Event>)
    requires cfg.Valid() && IsGenesis(cfg, v0) && IsRun(cfg, v0, evs) && evs != []
    ensures IsRun(cfg, v0, evs[..|evs| - 1])
    ensures Legal(Run(cfg, v0, evs[..|evs| - 1]), evs[|evs| - 1])
    ensures Run(cfg, v0, evs) == Next(Run(cfg, v0, evs[..|evs| - 1]), evs[|evs| - 1])
  {
    hide WellFormed, Legal, Next, First;
  }

  lemma ExtendRun(cfg: Config, v0: Vertex, log: seq<Event>, e: Event)
    requires cfg.Valid() && IsGenesis(cfg, v0) && IsRun(cfg, v0, log) && Legal(Run(cfg, v0, log), e)
    ensures IsRun(cfg, v0, log + [e])
    ensures Run(cfg, v0, log + [e]) == Next(Run(cfg, v0, log), e)
  {
    hide WellFormed, Legal, Next, First;
    assert (log + [e])[..|log + [e]| - 1] == log;
  }

  lemma RunOfNothing(cfg: Config, v0: Vertex)
    requires cfg.Valid() && IsGenesis(cfg, v0)
    ensures IsRun(cfg, v0, []) && Run(cfg, v0, []) == First(cfg, v0) == Genesis(cfg, v0)
  {
    hide WellFormed, Legal, Next;
  }

  ghost predicate Later(d: Dag, d': Dag) {
    Extends(d.graph, d'.graph) && DecGrows(d.state, d'.state)
  }

  lemma LaterTrans(d: Dag, d': Dag, d'': Dag)
    requires Later(d, d') && Later(d', d'')
    ensures Later(d, d'')
  {
  }

  lemma {:induction false} RunGrows(cfg: Config, v0: Vertex, evs: seq<Event>, n: nat)
    requires cfg.Valid() && IsGenesis(cfg, v0) && IsRun(cfg, v0, evs) && n <= |evs|
    ensures IsRun(cfg, v0, evs[..n])
    ensures Later(Run(cfg, v0, evs[..n]), Run(cfg, v0, evs))
    decreases |evs|
  {
    hide WellFormed, Legal, Next, First, Run, IsRun, Extends, DecGrows;
    PrefixIsRun(cfg, v0, evs, n);
    if n == |evs| {
      assert evs[..n] == evs;
      LaterRefl(Run(cfg, v0, evs));
    } else {
      var before, last := evs[..|evs| - 1], evs[|evs| - 1];
      RunStep(cfg, v0, evs);
      RunGrows(cfg, v0, before, n);
      assert before[..n] == evs[..n];
      EventGrows(Run(cfg, v0, before), last);
      LaterTrans(Run(cfg, v0, evs[..n]), Run(cfg, v0, before), Run(cfg, v0, evs));
    }
  }

  lemma LaterRefl(d: Dag)
    ensures Later(d, d)
  {
  }

  // ----- active constraint sets only shrink -----

  /** As the graph grows and decisions are added, the constraints a search returns for a given
      parent list only become fewer. */
  lemma OpenConstraintsShrink(g: Graph, g': Graph, st: State, st': State, ps: seq<VertexHash>)
    requires Grounded(g) && Grounded(g') && Extends(g, g') && AllInserted(g, ps) && ps != []
    requires Rooted(g, DecidedIn(g, st)) && DecGrows(st, st')
    ensures AllInserted(g', ps)
    ensures OpenConstraints(g', st', ps) <= OpenConstraints(g, st, ps)
  {
    var D, D' := DecidedIn(g, st), DecidedIn(g', st');
    assert D <= D';
    ActiveStable(g, g', D', D', ps);
    CutMonotone(g, D, D', ps);
    GatherAntitone(g, ps, Cut(g, D, ps), Cut(g, D', ps));
    forall x | x in Active(g, D, ps) ensures x in g { ActiveSound(g, D, ps, x); }
  }

  /** The search a vote on, or a query of, an inserted vertex performs. */
  ghost function SearchFor(d: Dag, h: VertexHash): Result<set<Constraint>, Error>
    requires WellFormed(d) && h in d.graph && h != d.cfg.genesis
  {
    assert VertexOk(d.cfg.genesis, d.graph, h);
    ActiveConstraints(d.vertex, d.graph, d.state, d.graph[h])
  }

  lemma SearchForMeaning(d: Dag, h: VertexHash)
    requires WellFormed(d) && h in d.graph && h != d.cfg.genesis
    ensures d.graph[h].parents != [] && Distinct(d.graph[h].parents)
    ensures AllInserted(d.graph, d.graph[h].parents) && Antichain(d.graph, d.graph[h].parents)
    ensures SearchFor(d, h) ==
            if HitsRejected(d.state, OpenAll(d.graph, DecidedIn(d.graph, d.state), d.graph[h].parents))
            then Err(RejectedAncestor)
            else Ok(OpenConstraints(d.graph, d.state, d.graph[h].parents))
  {
    assert VertexOk(d.cfg.genesis, d.graph, h);
    RootedGraph(d);
    SearchOutcome(d.vertex, d.graph, d.state, d.graph[h].parents);
  }

  /** Over a run, whenever the search for an inserted vertex succeeds, it returns no constraint
      it had not returned at any earlier point where it succeeded. */
  lemma ActiveConstraintsOnlyShrink(cfg: Config, v0: Vertex, evs: seq<Event>, n: nat, h: VertexHash)
    requires cfg.Valid() && IsGenesis(cfg, v0) && IsRun(cfg, v0, evs) && n <= |evs|
    ensures IsRun(cfg, v0, evs[..n])
    ensures h in Run(cfg, v0, evs[..n]).graph && h != cfg.genesis ==>
              var d, d' := Run(cfg, v0, evs[..n]), Run(cfg, v0, evs);
              && h in d'.graph
              && (SearchFor(d, h).Ok? && SearchFor(d', h).Ok? ==> SearchFor(d', h).value <= SearchFor(d, h).value)
  {
    hide Legal, Next, First, Run, IsRun;
    RunGrows(cfg, v0, evs, n);
    if h in Run(cfg, v0, evs[..n]).graph && h != cfg.genesis {
      var d, d' := Run(cfg, v0, evs[..n]), Run(cfg, v0, evs);
      SearchForMeaning(d, h);
      SearchForMeaning(d', h);
      RootedGraph(d);
      OpenConstraintsShrink(d.graph, d'.graph, d.state, d'.state, d.graph[h].parents);
    }
  }
}

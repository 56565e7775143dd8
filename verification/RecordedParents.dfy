/** Which constraint parents a conflict set records (src/consensus/dag.rs: `insert`, `ConflictSet::new`). */
module RecordedParents {
  import opened Vertices
  import opened Ancestry
  import opened DagTypes
  import opened Voting
  import opened Insertion
  import opened Dags
  import opened Steps
  import opened Runs
  import opened Ballots

  /** The conflict set records the constraint parents of `c`, and no parents for the opposite. */
  ghost predicate FirstSeen(g: Graph, s: ConflictSet, c: Constraint) {
    && c in Reg(g)
    && forall e: Constraint :: e.Key() == c.Key() ==>
         e in s.parents && s.parents[e] == if e == c then ConstraintParents(g, c) else {}
  }

  ghost predicate OneRecorded(g: Graph, s: ConflictSet, k: ConflictSetKey) {
    exists c: Constraint :: c.Key() == k && FirstSeen(g, s, c)
  }

  ghost predicate AllRecorded(g: Graph, st: State) {
    forall k :: k in st ==> OneRecorded(g, st[k], k)
  }

  lemma OldRecorded(g: Graph, st: State, v: Vertex, k: ConflictSetKey)
    requires Grounded(g) && StateOk(g, st) && Joins(g, v) && k in st && OneRecorded(g, st[k], k)
    ensures k in InsertState(g, st, v) && OneRecorded(With(g, v), InsertState(g, st, v)[k], k)
  {
    hide Grounded, StateOk, ConstraintParents, Reg;
    ParentListOneOrder(v.parents);
    GrownGraph(g, v);
    var c: Constraint :| c.Key() == k && FirstSeen(g, st[k], c);
    OldConstraints(g, v, c);
    assert InsertState(g, st, v)[k].parents == st[k].parents;
    assert FirstSeen(With(g, v), InsertState(g, st, v)[k], c);
  }

  lemma FreshRecorded(g: Graph, st: State, c: Constraint)
    requires c in Reg(g)
    ensures FirstSeen(g, FreshSet(g, st, c), c)
  {
    hide ConstraintParents, Reg;
    forall e: Constraint | e.Key() == c.Key()
      ensures e in FreshSet(g, st, c).parents && FreshSet(g, st, c).parents[e] == if e == c
          then ConstraintParents(g, c) else {}
    {
      KeyIdentifiesConflictSet(c, e);
    }
  }

  lemma NewRecorded(g: Graph, st: State, v: Vertex, k: ConflictSetKey)
    requires Grounded(g) && StateOk(g, st) && Joins(g, v) && k !in st && k in InsertState(g, st, v)
    ensures OneRecorded(With(g, v), InsertState(g, st, v)[k], k)
  {
    hide Grounded, StateOk, Reg, ConstraintParents, FreshSet;
    GrownGraph(g, v);
    ParentListOneOrder(v.parents);
    if k in KeysOf(PC(v.parents)) {
      var c := WithKey(PC(v.parents), k);
      PairValue(g, st, v, c);
      FreshRecorded(With(g, v), st, c);
    } else {
      UnitySetOk(g, st, v);
      FreshRecorded(With(g, v), Register(With(g, v), st, PC(v.parents)), Unity(v.hash));
    }
  }

  lemma InsertRecorded(g: Graph, st: State, v: Vertex)
    requires Grounded(g) && StateOk(g, st) && Joins(g, v) && AllRecorded(g, st)
    ensures AllRecorded(With(g, v), InsertState(g, st, v))
  {
    hide Grounded, StateOk, InsertState, With, OneRecorded, Joins;
    forall k | k in InsertState(g, st, v)
      ensures OneRecorded(With(g, v), InsertState(g, st, v)[k], k)
    {
      if k in st { OldRecorded(g, st, v, k); } else { NewRecorded(g, st, v, k); }
    }
  }

  lemma AwardShape(st: State, u: Constraint, k: ConflictSetKey)
    requires k in st
    ensures Award(st, u).Keys == st.Keys && Award(st, u)[k].parents == st[k].parents
  {
  }

  lemma AwardRecorded(g: Graph, st: State, u: Constraint)
    requires AllRecorded(g, st)
    ensures AllRecorded(g, Award(st, u))
  {
    hide Reg, ConstraintParents, Award;
    forall k | k in st
      ensures Award(st, u).Keys == st.Keys && OneRecorded(g, Award(st, u)[k], k)
    {
      AwardShape(st, u, k);
      var c: Constraint :| c.Key() == k && FirstSeen(g, st[k], c);
      assert FirstSeen(g, Award(st, u)[k], c);
    }
    AwardEmpty(st, u);
  }

  lemma AwardEmpty(st: State, u: Constraint)
    ensures Award(st, u).Keys == st.Keys
  {
  }

  lemma VoteRecorded(d: Dag, h: VertexHash, preferred: bool, order: seq<VertexHash>)
    requires WellFormed(d) && h in d.pending && Legal(d, Vote(h, preferred, order)) && AllRecorded(d.graph, d.state)
    ensures AllRecorded(d.graph, RecordVote(d, h, preferred, order).state)
  {
    hide WellFormed, Legal, Grounded, StateOk, Ballot, RecordVote, VoteAll, Award, HaveKeys, Distinct;
    RecordIsVoteAll(d, h, preferred, order);
    AwardRecorded(d.graph, d.state, Unity(h));
    VoteAllShape(d.cfg, d.graph, Awarded(d, h, preferred), Ballot(d, h, preferred, order), preferred);
  }

  lemma FirstRecorded(cfg: Config, v0: Vertex)
    requires cfg.Valid() && IsGenesis(cfg, v0)
    ensures AllRecorded(Genesis(cfg, v0).graph, Genesis(cfg, v0).state)
  {
    var u, d := Unity(v0.hash), Genesis(cfg, v0);
    GenesisGraph(cfg, v0);
    forall e: Constraint | e.Key() == u.Key() ensures e == u { KeyIdentifiesConflictSet(u, e); }
    assert ConstraintParents(d.graph, u) == {};
    assert FirstSeen(d.graph, d.state[u.Key()], u);
  }

  lemma {:induction false} RunRecorded(cfg: Config, v0: Vertex, evs: seq<Event>)
    requires cfg.Valid() && IsGenesis(cfg, v0) && IsRun(cfg, v0, evs)
    ensures AllRecorded(Run(cfg, v0, evs).graph, Run(cfg, v0, evs).state)
    decreases |evs|
  {
    hide WellFormed, Legal, Next, Run, IsRun, AllRecorded, Apply, RecordVote, Passes, Joins, Insert, Grounded, With,
         Genesis;
    if evs == [] {
      RunOfNothing(cfg, v0);
      FirstRecorded(cfg, v0);
    } else {
      RunStep(cfg, v0, evs);
      RunRecorded(cfg, v0, evs[..|evs| - 1]);
      var d, e := Run(cfg, v0, evs[..|evs| - 1]), evs[|evs| - 1];
      GraphOf(d);
      NextIsApply(d, e);
      match e
      case Submit(v) =>
        SubmitCases(d, v);
        if Passes(d, v) {
          InsertParts(d, v);
          InsertRecorded(d.graph, d.state, v);
        }
      case Vote(h, preferred, order) =>
        VoteCases(d, h, preferred, order);
        if h in d.pending { VoteRecorded(d, h, preferred, order); }
    }
  }

  /** Two different vertices commit to something, one of them at least not being genesis. */
  lemma PairHasParents(d: Dag, c: Constraint)
    requires WellFormed(d) && c in Reg(d.graph) && !c.IsUnity()
    ensures ConstraintParents(d.graph, c) != {} && ConstraintParents(d.graph, c.Flip()) == ConstraintParents(d.graph, c)
  {
    hide StateOk, KnownOk, ChildrenOk, FrontierOk, ChitsOk, HeightIsNext, Accepted, Reg;
    RegEndpoints(d.graph, c);
    var h := if c.left != d.cfg.genesis then c.left else c.right;
    assert VertexOk(d.cfg.genesis, d.graph, h);
    EmptyPC(d.graph[h].parents);
  }

  /** In every run, each conflict set of a pair records the constraint parents of exactly one of
      its orders.  For the other it records none, although the two have the same constraint
      parents and these are never none. */
  lemma OneOrderRecorded(cfg: Config, v0: Vertex, evs: seq<Event>, k: ConflictSetKey) returns (c: Constraint)
    requires cfg.Valid() && IsGenesis(cfg, v0) && IsRun(cfg, v0, evs)
    requires k in Run(cfg, v0, evs).state && k.lt != k.gt
    ensures c.Key() == k && !c.IsUnity()
    ensures var d := Run(cfg, v0, evs); var parents := d.state[k].parents;
            && c in parents && parents[c] == ConstraintParents(d.graph, c)
            && c.Flip() in parents && parents[c.Flip()] == {}
            && ConstraintParents(d.graph, c.Flip()) == ConstraintParents(d.graph, c) != {}
  {
    hide WellFormed, Run, IsRun, ConstraintParents, Reg;
    var d := Run(cfg, v0, evs);
    RunRecorded(cfg, v0, evs);
    assert OneRecorded(d.graph, d.state[k], k);
    c :| c.Key() == k && FirstSeen(d.graph, d.state[k], c);
    assert c.Flip().Key() == k;
    PairHasParents(d, c);
  }
}

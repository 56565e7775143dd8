/**
 What holds in every run from genesis, whatever is submitted and voted: no two opposite
 constraints are walked in one vote, opposite orders are never both accepted and a decided
 conflict set is frozen, counters never exceed live support, and acceptances are backed by
 enough distinct recorded vertices.
 */
module Safety {
  import opened Vertices
  import opened Ancestry
  import opened DagTypes
  import opened Search
  import opened ActiveSets
  import opened Voting
  import opened Insertion
  import opened Dags
  import opened Steps
  import opened Runs
  import opened Ballots

  // ----- no conflict in the searched constraints -----

  /** The constraints open to any inserted vertex are free of conflicts: what the check tested
      once at insertion. */
  ghost predicate NoOpenConflicts(genesis: VertexHash, g: Graph, st: State)
    requires Grounded(g)
  {
    forall h :: h in g && h != genesis && AllInserted(g, g[h].parents) ==>
      !HasConflict(OpenConstraints(g, st, g[h].parents))
  }

  lemma InsertNoOpenConflicts(d: Dag, v: Vertex)
    requires WellFormed(d) && Passes(d, v) && Legal(d, Submit(v)) && NoOpenConflicts(d.cfg.genesis, d.graph, d.state)
    ensures Joins(d.graph, v) && WellFormed(Insert(d, v))
    ensures NoOpenConflicts(d.cfg.genesis, Insert(d, v).graph, Insert(d, v).state)
  {
    InsertWellFormed(d, v);
    GrownGraph(d.graph, v);
    RootedGraph(d);
    var g', st' := Insert(d, v).graph, Insert(d, v).state;
    forall h | h in g' && h != d.cfg.genesis
      ensures AllInserted(g', g'[h].parents) && !HasConflict(OpenConstraints(g', st', g'[h].parents))
    {
      OldParents(d, v, h);
      OpenConstraintsShrink(d.graph, g', d.state, st', g'[h].parents);
    }
  }

  lemma OldParents(d: Dag, v: Vertex, h: VertexHash)
    requires WellFormed(d) && Passes(d, v) && Joins(d.graph, v) && NoOpenConflicts(d.cfg.genesis, d.graph, d.state)
    requires h in With(d.graph, v) && h != d.cfg.genesis
    ensures var ps := With(d.graph, v)[h].parents;
            ps != [] && AllInserted(d.graph, ps) && !HasConflict(OpenConstraints(d.graph, d.state, ps))
  {
    if h in d.graph {
      assert VertexOk(d.cfg.genesis, d.graph, h);
    }
  }

  lemma VoteNoOpenConflicts(d: Dag, h: VertexHash, preferred: bool, order: seq<VertexHash>)
    requires WellFormed(d) && h in d.pending && NoOpenConflicts(d.cfg.genesis, d.graph, d.state)
    ensures NoOpenConflicts(d.cfg.genesis, d.graph, RecordVote(d, h, preferred, order).state)
  {
    RecordDecGrows(d, h, preferred, order);
    RootedGraph(d);
    var g, st' := d.graph, RecordVote(d, h, preferred, order).state;
    forall x | x in g && x != d.cfg.genesis && AllInserted(g, g[x].parents)
      ensures !HasConflict(OpenConstraints(g, st', g[x].parents))
    {
      assert VertexOk(d.cfg.genesis, g, x);
      OpenConstraintsShrink(g, g, d.state, st', g[x].parents);
    }
  }

  /** A ballot never holds a constraint and its opposite. */
  lemma BallotConflictFree(d: Dag, h: VertexHash, preferred: bool, order: seq<VertexHash>, c: Constraint)
    requires WellFormed(d) && h in d.pending && Legal(d, Vote(h, preferred, order))
    requires NoOpenConflicts(d.cfg.genesis, d.graph, d.state)
    requires c in Ballot(d, h, preferred, order) && !c.IsUnity()
    ensures c.Flip() !in Ballot(d, h, preferred, order)
  {
    PendingVertex(d, h);
    BallotContent(d, h, preferred, order, c);
    BallotContent(d, h, preferred, order, c.Flip());
  }

  // ----- opposite orders -----

  /** The opposite of an accepted constraint is rejected. */
  ghost predicate OppositesRejected(st: State) {
    forall c :: Accepted(st, c) && !c.IsUnity() ==> Rejected(st, c.Flip())
  }

  lemma VoteOpposites(cfg: Config, g: Graph, st: State, c: Constraint)
    requires Grounded(g) && StateOk(g, st) && c.Key() in st && OppositesRejected(st)
    requires !c.IsUnity() ==> !Accepted(st, c.Flip())
    ensures OppositesRejected(VoteFor(cfg, g, st, c))
    ensures forall e :: Accepted(VoteFor(cfg, g, st, c), e) ==> e == c || Accepted(st, e)
  {
    var st' := VoteFor(cfg, g, st, c);
    forall e | Accepted(st', e)
      ensures e == c || Accepted(st, e)
      ensures !e.IsUnity() ==> Rejected(st', e.Flip())
    {
      VoteForFacts(cfg, g, st, c, e);
      VoteForFacts(cfg, g, st, c, e.Flip());
    }
  }

  lemma {:induction false} VoteAllOpposites(cfg: Config, g: Graph, st: State, cs: seq<Constraint>)
    requires Grounded(g) && StateOk(g, st) && HaveKeys(st, cs) && OppositesRejected(st)
    requires NoOppositeAccepted(st, cs)
    ensures OppositesRejected(VoteAll(cfg, g, st, cs, true))
    ensures forall e :: Accepted(VoteAll(cfg, g, st, cs, true), e) ==> Accepted(st, e) || e in cs
  {
    if cs != [] {
      var rest, c := cs[..|cs| - 1], cs[|cs| - 1];
      assert forall x :: x in rest ==> x in cs;
      VoteAllOpposites(cfg, g, st, rest);
      VoteAllStateOk(cfg, g, st, rest, true);
      VoteOpposites(cfg, g, VoteAll(cfg, g, st, rest, true), c);
    }
  }

  lemma {:induction false} VoteAllAgainst(cfg: Config, g: Graph, st: State, cs: seq<Constraint>)
    requires Grounded(g)
    ensures forall c :: Dec(VoteAll(cfg, g, st, cs, false), c) == Dec(st, c)
    ensures forall c :: Count(VoteAll(cfg, g, st, cs, false), c) == if c in cs then 0 else Count(st, c)
    ensures var st' := VoteAll(cfg, g, st, cs, false);
            st'.Keys == st.Keys && forall k :: k in st ==> st'[k] == st[k].(count := st'[k].count)
  {
    if cs != [] {
      var rest, last := cs[..|cs| - 1], cs[|cs| - 1];
      assert cs == rest + [last];
      VoteAllAgainst(cfg, g, st, rest);
      forall c
        ensures Dec(VoteAll(cfg, g, st, cs, false), c) == Dec(st, c)
        ensures Count(VoteAll(cfg, g, st, cs, false), c) == if c in cs then 0 else Count(st, c)
      {
        AgainstFacts(VoteAll(cfg, g, st, rest, false), last, c);
      }
    }
  }

  lemma AgainstFacts(st: State, c: Constraint, d: Constraint)
    ensures Dec(VoteAgainst(st, c), d) == Dec(st, d)
    ensures Count(VoteAgainst(st, c), d) == if d == c then 0 else Count(st, d)
  {
  }

  ghost predicate NoOppositeAccepted(st: State, cs: seq<Constraint>) {
    forall c :: c in cs && !c.IsUnity() ==> c.Flip() !in cs && !Accepted(st, c.Flip())
  }

  lemma BallotOpposites(d: Dag, h: VertexHash, preferred: bool, order: seq<VertexHash>)
    requires WellFormed(d) && h in d.pending && Legal(d, Vote(h, preferred, order))
    requires NoOpenConflicts(d.cfg.genesis, d.graph, d.state) && OppositesRejected(d.state)
    ensures NoOppositeAccepted(Awarded(d, h, preferred), Ballot(d, h, preferred, order))
    ensures OppositesRejected(Awarded(d, h, preferred))
  {
    hide WellFormed, Legal, Ballot, Awarded;
    AwardedDec(d, h, preferred);
    forall c | c in Ballot(d, h, preferred, order) && !c.IsUnity()
      ensures c.Flip() !in Ballot(d, h, preferred, order) && !Accepted(d.state, c.Flip())
    {
      BallotConflictFree(d, h, preferred, order, c);
      BallotBacked(d, h, preferred, order, c);
    }
  }

  lemma SameDecOpposites(st: State, st': State)
    requires OppositesRejected(st) && forall c :: Dec(st', c) == Dec(st, c)
    ensures OppositesRejected(st')
  {
  }

  lemma RecordOpposites(d: Dag, h: VertexHash, preferred: bool, order: seq<VertexHash>)
    requires WellFormed(d) && h in d.pending && Legal(d, Vote(h, preferred, order))
    requires NoOpenConflicts(d.cfg.genesis, d.graph, d.state) && OppositesRejected(d.state)
    ensures OppositesRejected(RecordVote(d, h, preferred, order).state)
  {
    hide *;
    RecordIsVoteAll(d, h, preferred, order);
    BallotOpposites(d, h, preferred, order);
    if preferred {
      VoteAllOpposites(d.cfg, d.graph, Awarded(d, h, preferred), Ballot(d, h, preferred, order));
    } else {
      VoteAllAgainst(d.cfg, d.graph, Awarded(d, h, preferred), Ballot(d, h, preferred, order));
      SameDecOpposites(Awarded(d, h, preferred), RecordVote(d, h, preferred, order).state);
    }
  }

  lemma InsertOpposites(d: Dag, v: Vertex)
    requires WellFormed(d) && Joins(d.graph, v) && OppositesRejected(d.state)
    ensures OppositesRejected(InsertState(d.graph, d.state, v))
  {
    forall c | Accepted(InsertState(d.graph, d.state, v), c)
      ensures Accepted(d.state, c)
      ensures !c.IsUnity() ==> Rejected(InsertState(d.graph, d.state, v), c.Flip())
    {
      InsertAcceptsNothing(d.graph, d.state, v, c);
      if !c.IsUnity() { InsertKeeps(d.graph, d.state, v, c.Flip()); }
    }
  }

  // ----- frozen conflict sets -----

  ghost predicate SameVotes(s: ConflictSet, s': ConflictSet) {
    s'.preferred == s.preferred && s'.last == s.last && s'.count == s.count && s'.confidence == s.confidence
  }

  lemma {:induction false} VoteAllElsewhere(cfg: Config, g: Graph, st: State, cs: seq<Constraint>, preferred: bool,
                                            k: ConflictSetKey)
    requires Grounded(g) && k in st && forall c :: c in cs ==> c.Key() != k
    ensures k in VoteAll(cfg, g, st, cs, preferred) && SameVotes(st[k], VoteAll(cfg, g, st, cs, preferred)[k])
  {
    if cs != [] {
      VoteAllElsewhere(cfg, g, st, cs[..|cs| - 1], preferred, k);
    }
  }

  /** Once both orders of a pair are decided, no event touches preference or counters of the
      pair again. */
  lemma DecidedPairFrozen(d: Dag, e: Event, c: Constraint)
    requires WellFormed(d) && Legal(d, e)
    requires !c.IsUnity() && !Undecided(d.state, c) && !Undecided(d.state, c.Flip())
    ensures c.Key() in d.state && c.Key() in Apply(d, e).state
    ensures SameVotes(d.state[c.Key()], Apply(d, e).state[c.Key()])
  {
    match e
    case Submit(v) =>
      SubmitCases(d, v);
    case Vote(h, preferred, order) =>
      if h in d.pending {
        var cs, st := Ballot(d, h, preferred, order), Awarded(d, h, preferred);
        BallotElsewhere(d, h, preferred, order, c);
        AwardedSameVotes(d.state, Unity(h), c.Key());
        VoteAllElsewhere(d.cfg, d.graph, st, cs, preferred, c.Key());
      }
  }

  lemma BallotElsewhere(d: Dag, h: VertexHash, preferred: bool, order: seq<VertexHash>, c: Constraint)
    requires WellFormed(d) && h in d.pending && Legal(d, Vote(h, preferred, order))
    requires !c.IsUnity() && !Undecided(d.state, c) && !Undecided(d.state, c.Flip())
    ensures forall e :: e in Ballot(d, h, preferred, order) ==> e.Key() != c.Key()
  {
    forall e | e in Ballot(d, h, preferred, order)
      ensures e.Key() != c.Key()
    {
      BallotBacked(d, h, preferred, order, e);
      KeyIdentifiesConflictSet(c, e);
    }
  }

  lemma AwardedSameVotes(st: State, u: Constraint, k: ConflictSetKey)
    requires k in st
    ensures k in Award(st, u) && SameVotes(st[k], Award(st, u)[k])
  {
  }

  // ----- counters and support -----

  /** Counters never exceed the number of recorded vertices speaking for the constraint. */
  ghost predicate CountsSupported(g: Graph, st: State)
    requires Grounded(g)
  {
    forall c :: Count(st, c) <= |Supporters(g, st, c)|
  }

  /** Each constraint of a vote is counted once. */
  lemma {:induction false} VoteAllCounts(cfg: Config, g: Graph, st: State, cs: seq<Constraint>, c: Constraint)
    requires Grounded(g) && StateOk(g, st) && HaveKeys(st, cs) && Distinct(cs)
    ensures Count(VoteAll(cfg, g, st, cs, true), c) <= Count(st, c) + if c in cs then 1 else 0
  {
    if cs != [] {
      var rest, last := cs[..|cs| - 1], cs[|cs| - 1];
      assert cs == rest + [last];
      VoteAllCounts(cfg, g, st, rest, c);
      VoteAllStateOk(cfg, g, st, rest, true);
      VoteForFacts(cfg, g, VoteAll(cfg, g, st, rest, true), last, c);
    }
  }

  /** The number of distinct recorded vertices an acceptance needs. */
  ghost function Quorum(cfg: Config, c: Constraint): nat {
    if c.IsUnity() then cfg.threshSafeEarlyCommit else cfg.threshAccepted
  }

  ghost predicate AcceptancesBacked(cfg: Config, g: Graph, st: State)
    requires Grounded(g)
  {
    forall c :: Accepted(st, c) && c != Unity(cfg.genesis) ==> |Supporters(g, st, c)| >= Quorum(cfg, c)
  }

  lemma VoteAccepts(cfg: Config, g: Graph, st: State, c: Constraint, d: Constraint)
    requires Grounded(g) && StateOk(g, st) && c.Key() in st && cfg.Valid()
    requires Accepted(VoteFor(cfg, g, st, c), d) && !Accepted(st, d)
    ensures d == c && Count(VoteFor(cfg, g, st, c), d) >= Quorum(cfg, d)
  {
    VoteForFacts(cfg, g, st, c, d);
    TallyFacts(g, st, c, d);
  }

  lemma CountElsewhere(cfg: Config, g: Graph, st: State, c: Constraint, d: Constraint)
    requires Grounded(g) && StateOk(g, st) && c.Key() in st && d != c
    ensures Count(VoteFor(cfg, g, st, c), d) == Count(st, d)
  {
    VoteForFacts(cfg, g, st, c, d);
  }

  /** Whatever a vote accepts has been counted up to its threshold. */
  lemma {:induction false} VoteAllAccepts(cfg: Config, g: Graph, st: State, cs: seq<Constraint>, c: Constraint)
    requires Grounded(g) && StateOk(g, st) && HaveKeys(st, cs) && cfg.Valid() && Distinct(cs)
    requires Accepted(VoteAll(cfg, g, st, cs, true), c) && !Accepted(st, c)
    ensures c in cs && Count(VoteAll(cfg, g, st, cs, true), c) >= Quorum(cfg, c)
  {
    hide StateOk, VoteFor, Accepted, Count, Quorum;
    assert cs != [];
    var rest, last := cs[..|cs| - 1], cs[|cs| - 1];
    assert cs == rest + [last];
    var mid := VoteAll(cfg, g, st, rest, true);
    VoteAllStateOk(cfg, g, st, rest, true);
    assert VoteAll(cfg, g, st, cs, true) ==
           VoteOn(cfg, g, VoteAll(cfg, g, st, cs[..|cs| - 1], true), cs[|cs| - 1], true);
    if Accepted(mid, c) {
      VoteAllAccepts(cfg, g, st, rest, c);
      CountElsewhere(cfg, g, mid, last, c);
    } else {
      VoteAccepts(cfg, g, mid, last, c);
    }
  }

  /** The support of a constraint after a vote. */
  lemma RecordSupport(d: Dag, h: VertexHash, preferred: bool, order: seq<VertexHash>, c: Constraint)
    requires WellFormed(d) && h in d.pending && Legal(d, Vote(h, preferred, order))
    ensures h !in Supporters(d.graph, d.state, c)
    ensures Supporters(d.graph, RecordVote(d, h, preferred, order).state, c) ==
            Supporters(d.graph, d.state, c) + if preferred && Backs(d.graph, h, c) then {h} else {}
  {
    hide WellFormed, Legal, RecordVote, VoteAll, StateOk, Grounded, Ballot, Awarded, Supporters, SameShape;
    RecordIsVoteAll(d, h, preferred, order);
    AwardedSupport(d, h, preferred, c);
    VoteAllShape(d.cfg, d.graph, Awarded(d, h, preferred), Ballot(d, h, preferred, order), preferred);
    ShapeKeepsChits(d.graph, Awarded(d, h, preferred), RecordVote(d, h, preferred, order).state);
  }

  lemma RecordCount(d: Dag, h: VertexHash, preferred: bool, order: seq<VertexHash>, c: Constraint)
    requires WellFormed(d) && h in d.pending && Legal(d, Vote(h, preferred, order))
    ensures Count(RecordVote(d, h, preferred, order).state, c) <=
            Count(d.state, c) + if preferred && c in Ballot(d, h, preferred, order) then 1 else 0
  {
    hide WellFormed, Legal, RecordVote, VoteAll, StateOk, Grounded, Ballot, Awarded, Distinct, Count;
    RecordIsVoteAll(d, h, preferred, order);
    AwardedDec(d, h, preferred);
    var cs := Ballot(d, h, preferred, order);
    if preferred {
      VoteAllCounts(d.cfg, d.graph, Awarded(d, h, preferred), cs, c);
    } else {
      VoteAllAgainst(d.cfg, d.graph, Awarded(d, h, preferred), cs);
    }
  }

  lemma RecordCounts(d: Dag, h: VertexHash, preferred: bool, order: seq<VertexHash>)
    requires WellFormed(d) && h in d.pending && Legal(d, Vote(h, preferred, order)) && CountsSupported(d.graph, d.state)
    ensures CountsSupported(d.graph, RecordVote(d, h, preferred, order).state)
  {
    hide WellFormed, Legal, RecordVote, StateOk, Grounded, Ballot, Supporters, Backs, Count;
    GraphOf(d);
    forall c
      ensures Count(RecordVote(d, h, preferred, order).state, c) <=
              |Supporters(d.graph, RecordVote(d, h, preferred, order).state, c)|
    {
      RecordCount(d, h, preferred, order, c);
      RecordSupport(d, h, preferred, order, c);
      if c in Ballot(d, h, preferred, order) { BallotBacked(d, h, preferred, order, c); }
    }
  }

  lemma RecordAcceptance(d: Dag, h: VertexHash, preferred: bool, order: seq<VertexHash>, c: Constraint)
    requires WellFormed(d) && h in d.pending && Legal(d, Vote(h, preferred, order))
    requires Accepted(RecordVote(d, h, preferred, order).state, c) && !Accepted(d.state, c)
    ensures Count(RecordVote(d, h, preferred, order).state, c) >= Quorum(d.cfg, c)
  {
    hide WellFormed, Legal, RecordVote, VoteAll, StateOk, Grounded, Ballot, Awarded, Dec, Count, Quorum, HaveKeys;
    RecordIsVoteAll(d, h, preferred, order);
    AwardedDec(d, h, preferred);
    if preferred {
      VoteAllAccepts(d.cfg, d.graph, Awarded(d, h, preferred), Ballot(d, h, preferred, order), c);
    } else {
      VoteAllAgainst(d.cfg, d.graph, Awarded(d, h, preferred), Ballot(d, h, preferred, order));
    }
  }

  lemma RecordAcceptances(d: Dag, h: VertexHash, preferred: bool, order: seq<VertexHash>)
    requires WellFormed(d) && h in d.pending && Legal(d, Vote(h, preferred, order))
    requires CountsSupported(d.graph, d.state) && AcceptancesBacked(d.cfg, d.graph, d.state)
    ensures AcceptancesBacked(d.cfg, d.graph, RecordVote(d, h, preferred, order).state)
  {
    hide WellFormed, Legal, RecordVote, StateOk, Grounded, Supporters, Backs, Dec, Count, Quorum;
    GraphOf(d);
    RecordCounts(d, h, preferred, order);
    var st' := RecordVote(d, h, preferred, order).state;
    forall c | Accepted(st', c) && c != Unity(d.cfg.genesis)
      ensures |Supporters(d.graph, st', c)| >= Quorum(d.cfg, c)
    {
      RecordSupport(d, h, preferred, order, c);
      if !Accepted(d.state, c) {
        RecordAcceptance(d, h, preferred, order, c);
      }
    }
  }

  /** Insertion changes nobody's support. */
  lemma InsertSupport(d: Dag, v: Vertex, c: Constraint)
    requires WellFormed(d) && Joins(d.graph, v)
    ensures Grounded(With(d.graph, v))
    ensures Supporters(With(d.graph, v), InsertState(d.graph, d.state, v), c) == Supporters(d.graph, d.state, c)
  {
    hide StateOk, AC;
    GraphOf(d);
    GrownGrounded(d.graph, v);
    NotYetIn(d.graph, v);
    InsertUnity(d.graph, d.state, v);
    forall w | w in d.graph
      ensures Chit(InsertState(d.graph, d.state, v), Unity(w)) == Chit(d.state, Unity(w))
      ensures w in With(d.graph, v) && Backs(With(d.graph, v), w, c) == Backs(d.graph, w, c)
    {
      UnityKey(d, w);
      InsertKeeps(d.graph, d.state, v, Unity(w));
      ACStable(d.graph, With(d.graph, v), w);
    }
  }

  lemma UnityKey(d: Dag, w: VertexHash)
    requires WellFormed(d) && w in d.graph
    ensures Unity(w) in Reg(d.graph) && Unity(w).Key() in d.state
  {
    RegMember(d.graph, w, Unity(w));
  }

  lemma InsertCounts(d: Dag, v: Vertex)
    requires WellFormed(d) && Joins(d.graph, v)
    requires CountsSupported(d.graph, d.state) && AcceptancesBacked(d.cfg, d.graph, d.state)
    ensures Grounded(With(d.graph, v))
    ensures CountsSupported(With(d.graph, v), InsertState(d.graph, d.state, v))
    ensures AcceptancesBacked(d.cfg, With(d.graph, v), InsertState(d.graph, d.state, v))
  {
    hide WellFormed, Joins, Grounded, StateOk, InsertState, Supporters, Dec, Count, Quorum, With;
    GraphOf(d);
    GrownGrounded(d.graph, v);
    forall c
      ensures Count(InsertState(d.graph, d.state, v), c) <=
              |Supporters(With(d.graph, v), InsertState(d.graph, d.state, v), c)|
      ensures Accepted(InsertState(d.graph, d.state, v), c) && c != Unity(d.cfg.genesis) ==>
                |Supporters(With(d.graph, v), InsertState(d.graph, d.state, v), c)| >= Quorum(d.cfg, c)
    {
      InsertSupport(d, v, c);
      if c.Key() in d.state { InsertKeeps(d.graph, d.state, v, c); } else { NewConstraint(d.graph, d.state, v, c); }
    }
  }

  // ----- every run -----

  ghost predicate Safe(d: Dag)
    requires Grounded(d.graph)
  {
    && NoOpenConflicts(d.cfg.genesis, d.graph, d.state)
    && OppositesRejected(d.state)
    && CountsSupported(d.graph, d.state)
    && AcceptancesBacked(d.cfg, d.graph, d.state)
  }

  lemma SafeSubmit(d: Dag, v: Vertex)
    requires WellFormed(d) && Legal(d, Submit(v)) && Safe(d)
    ensures Safe(Next(d, Submit(v)))
  {
    hide WellFormed, Legal, Apply, Passes, NoOpenConflicts, OppositesRejected, CountsSupported, AcceptancesBacked,
         Grounded, Joins;
    GraphOf(d);
    SubmitCases(d, v);
    if Passes(d, v) {
      InsertNoOpenConflicts(d, v);
      InsertOpposites(d, v);
      InsertCounts(d, v);
    }
  }

  lemma SafeVote(d: Dag, h: VertexHash, preferred: bool, order: seq<VertexHash>)
    requires WellFormed(d) && Legal(d, Vote(h, preferred, order)) && Safe(d)
    ensures Safe(Next(d, Vote(h, preferred, order)))
  {
    hide WellFormed, Legal, Apply, RecordVote, NoOpenConflicts, OppositesRejected, CountsSupported, AcceptancesBacked,
         Grounded;
    GraphOf(d);
    VoteCases(d, h, preferred, order);
    if h in d.pending {
      VoteNoOpenConflicts(d, h, preferred, order);
      RecordOpposites(d, h, preferred, order);
      RecordCounts(d, h, preferred, order);
      RecordAcceptances(d, h, preferred, order);
    }
  }

  lemma SafeFirst(cfg: Config, v0: Vertex)
    requires cfg.Valid() && IsGenesis(cfg, v0)
    ensures Safe(First(cfg, v0))
  {
    hide WellFormed, Dec, Count, Chit, Genesis, StateOk, Supporters, Quorum;
    var d := First(cfg, v0);
    GroundedFirst(cfg, v0);
    forall c { FirstState(cfg, v0, c); }
    assert NoOpenConflicts(cfg.genesis, d.graph, d.state);
  }

  lemma GroundedFirst(cfg: Config, v0: Vertex)
    requires cfg.Valid() && IsGenesis(cfg, v0)
    ensures Grounded(First(cfg, v0).graph) && First(cfg, v0).graph == map[v0.hash := v0]
  {
    hide StateOk, GenesisState;
  }

  lemma {:induction false} EveryRunSafe(cfg: Config, v0: Vertex, evs: seq<Event>)
    requires cfg.Valid() && IsGenesis(cfg, v0) && IsRun(cfg, v0, evs)
    ensures Safe(Run(cfg, v0, evs))
    decreases |evs|
  {
    if evs == [] {
      SafeFirst(cfg, v0);
    } else {
      RunStep(cfg, v0, evs);
      var d, e := Run(cfg, v0, evs[..|evs| - 1]), evs[|evs| - 1];
      EveryRunSafe(cfg, v0, evs[..|evs| - 1]);
      hide WellFormed, Legal, Next, First, Run, IsRun, Safe;
      match e
      case Submit(v) => SafeSubmit(d, v);
      case Vote(h, preferred, order) => SafeVote(d, h, preferred, order);
    }
  }

  // ----- main results -----

  /** In no run are two opposite orders both accepted: the opposite of an accepted order is
      rejected. */
  lemma NeverBothOrders(cfg: Config, v0: Vertex, evs: seq<Event>, c: Constraint)
    requires cfg.Valid() && IsGenesis(cfg, v0) && IsRun(cfg, v0, evs)
    requires !c.IsUnity() && Accepted(Run(cfg, v0, evs).state, c)
    ensures Rejected(Run(cfg, v0, evs).state, c.Flip())
  {
    hide WellFormed, Legal, Next, First, Run, IsRun;
    EveryRunSafe(cfg, v0, evs);
  }

  /** The list a vote walks never holds a constraint together with its opposite, although the
      conflict check is made only once, when the vertex is inserted. */
  lemma NoVoteTouchesBothOrders(cfg: Config, v0: Vertex, evs: seq<Event>, h: VertexHash, preferred: bool,
                                order: seq<VertexHash>)
    requires cfg.Valid() && IsGenesis(cfg, v0) && IsRun(cfg, v0, evs)
    requires h in Run(cfg, v0, evs).pending && Legal(Run(cfg, v0, evs), Vote(h, preferred, order))
    ensures var cs := Ballot(Run(cfg, v0, evs), h, preferred, order);
            forall c :: c in cs && !c.IsUnity() ==> c.Flip() !in cs
  {
    hide WellFormed, Legal, Next, First, Run, IsRun, Ballot, NoOpenConflicts;
    EveryRunSafe(cfg, v0, evs);
    var d := Run(cfg, v0, evs);
    forall c | c in Ballot(d, h, preferred, order) && !c.IsUnity()
      ensures c.Flip() !in Ballot(d, h, preferred, order)
    {
      BallotConflictFree(d, h, preferred, order, c);
    }
  }

  /** From the moment both orders of a pair are decided, as they are once one is accepted, the
      pair's preference, last vote, counters and confidence never change again. */
  lemma {:induction false} DecidedPairStaysFrozen(cfg: Config, v0: Vertex, evs: seq<Event>, n: nat, c: Constraint)
    requires cfg.Valid() && IsGenesis(cfg, v0) && IsRun(cfg, v0, evs) && n <= |evs|
    ensures IsRun(cfg, v0, evs[..n])
    ensures var st, st' := Run(cfg, v0, evs[..n]).state, Run(cfg, v0, evs).state;
            !c.IsUnity() && !Undecided(st, c) && !Undecided(st, c.Flip()) ==>
              c.Key() in st && c.Key() in st' && SameVotes(st[c.Key()], st'[c.Key()])
    decreases |evs|
  {
    hide WellFormed, Legal, Next, First, Run, IsRun;
    RunGrows(cfg, v0, evs, n);
    var st := Run(cfg, v0, evs[..n]).state;
    if !c.IsUnity() && !Undecided(st, c) && !Undecided(st, c.Flip()) {
      if n == |evs| {
        assert evs[..n] == evs;
      } else {
        var before := evs[..|evs| - 1];
        RunStep(cfg, v0, evs);
        RunGrows(cfg, v0, before, n);
        assert before[..n] == evs[..n];
        DecidedPairStaysFrozen(cfg, v0, before, n, c);
        DecidedPairFrozen(Run(cfg, v0, before), evs[|evs| - 1], c);
        NextIsApply(Run(cfg, v0, before), evs[|evs| - 1]);
      }
    }
  }

  /** The vertices whose vote was positive when they were voted on. */
  ghost function Recorded(cfg: Config, v0: Vertex, evs: seq<Event>): set<VertexHash>
    requires cfg.Valid() && IsGenesis(cfg, v0) && IsRun(cfg, v0, evs)
  {
    if evs == [] then {}
    else
      var before, last := evs[..|evs| - 1], evs[|evs| - 1];
      Recorded(cfg, v0, before) +
      if last.Vote? && last.preferred && last.h in Run(cfg, v0, before).pending then {last.h} else {}
  }

  lemma EventChits(d: Dag, e: Event, w: VertexHash)
    requires WellFormed(d) && Legal(d, e)
    ensures Chit(Next(d, e).state, Unity(w)) <==>
            Chit(d.state, Unity(w)) || (e.Vote? && e.preferred && e.h in d.pending && w == e.h)
  {
    hide WellFormed, Legal, Apply, RecordVote, Joins, Insert, Passes, Grounded;
    GraphOf(d);
    match e
    case Submit(v) =>
      SubmitCases(d, v);
      if Passes(d, v) { InsertChit(d, v, w); }
    case Vote(h, preferred, order) =>
      VoteCases(d, h, preferred, order);
      if h in d.pending { RecordChit(d, h, preferred, order, w); }
  }

  lemma InsertChit(d: Dag, v: Vertex, w: VertexHash)
    requires WellFormed(d) && Joins(d.graph, v)
    ensures Chit(Insert(d, v).state, Unity(w)) == Chit(d.state, Unity(w))
  {
    hide WellFormed, Joins, InsertState, Grounded, StateOk;
    GraphOf(d);
    if Unity(w).Key() in d.state {
      InsertKeeps(d.graph, d.state, v, Unity(w));
    } else {
      NewConstraint(d.graph, d.state, v, Unity(w));
    }
  }

  lemma RecordChit(d: Dag, h: VertexHash, preferred: bool, order: seq<VertexHash>, w: VertexHash)
    requires WellFormed(d) && h in d.pending && Legal(d, Vote(h, preferred, order))
    ensures Chit(RecordVote(d, h, preferred, order).state, Unity(w)) <==>
            Chit(d.state, Unity(w)) || (preferred && w == h)
  {
    hide WellFormed, Legal, RecordVote, VoteAll, Ballot, Awarded, SameShape, Chit, StateOk, Grounded;
    GraphOf(d);
    RecordIsVoteAll(d, h, preferred, order);
    AwardedFacts(d, h, preferred);
    VoteAllShape(d.cfg, d.graph, Awarded(d, h, preferred), Ballot(d, h, preferred, order), preferred);
    ShapeKeepsChits(d.graph, Awarded(d, h, preferred), RecordVote(d, h, preferred, order).state);
  }

  lemma {:induction false} ChitsAreRecorded(cfg: Config, v0: Vertex, evs: seq<Event>, w: VertexHash)
    requires cfg.Valid() && IsGenesis(cfg, v0) && IsRun(cfg, v0, evs)
    ensures Chit(Run(cfg, v0, evs).state, Unity(w)) <==> w in Recorded(cfg, v0, evs)
    decreases |evs|
  {
    hide WellFormed, Legal, Next, First, Run, IsRun, Chit;
    if evs == [] {
      FirstState(cfg, v0, Unity(w));
      RunOfNothing(cfg, v0);
    } else {
      RunStep(cfg, v0, evs);
      ChitsAreRecorded(cfg, v0, evs[..|evs| - 1], w);
      EventChits(Run(cfg, v0, evs[..|evs| - 1]), evs[|evs| - 1], w);
    }
  }

  /** The recursion over the constraint graph that computes the confidence of `c` counts, in
      every run, the positively recorded vertices which commit to `c`, directly or through an
      ancestor. */
  lemma ConfidenceInRuns(cfg: Config, v0: Vertex, evs: seq<Event>, c: Constraint)
    requires cfg.Valid() && IsGenesis(cfg, v0) && IsRun(cfg, v0, evs)
    requires c.Key() in Run(cfg, v0, evs).state
    ensures var d := Run(cfg, v0, evs);
            && Grounded(d.graph) && StateOk(d.graph, d.state)
            && |ProgenyWithChits(d.graph, d.state, c)| ==
               |set w | w in Recorded(cfg, v0, evs) && w in d.graph && Backs(d.graph, w, c)|
  {
    hide WellFormed, IsRun, Run, Recorded, StateOk, Chit, Grounded, Backs, ProgenyWithChits;
    var d := Run(cfg, v0, evs);
    GraphOf(d);
    ConfidenceCountsVertices(d.graph, d.state, c);
    forall w ensures Chit(d.state, Unity(w)) <==> w in Recorded(cfg, v0, evs) { ChitsAreRecorded(cfg, v0, evs, w); }
    assert Supporters(d.graph, d.state, c) == set w | w in Recorded(cfg, v0, evs) && w in d.graph &&
        Backs(d.graph, w, c);
  }

  /** In every run a counter is at most the live confidence, and an accepted constraint other
      than genesis has been backed by its threshold of distinct positively recorded vertices:
      the early one for a vertex, the full one for an order of two. */
  lemma AcceptanceNeedsQuorum(cfg: Config, v0: Vertex, evs: seq<Event>, c: Constraint)
    requires cfg.Valid() && IsGenesis(cfg, v0) && IsRun(cfg, v0, evs)
    ensures var d := Run(cfg, v0, evs);
            && Grounded(d.graph)
            && var backers := set w | w in Recorded(cfg, v0, evs) && w in d.graph && Backs(d.graph, w, c);
               && Count(d.state, c) <= |backers|
               && (Accepted(d.state, c) && c != Unity(cfg.genesis) ==> |backers| >= Quorum(cfg, c))
  {
    hide WellFormed, IsRun, Run, Recorded, StateOk, Chit, Grounded, Backs, NoOpenConflicts, OppositesRejected, Quorum,
         Count, Accepted;
    var d := Run(cfg, v0, evs);
    GraphOf(d);
    EveryRunSafe(cfg, v0, evs);
    forall w ensures Chit(d.state, Unity(w)) <==> w in Recorded(cfg, v0, evs) { ChitsAreRecorded(cfg, v0, evs, w); }
    assert Supporters(d.graph, d.state, c) == set w | w in Recorded(cfg, v0, evs) && w in d.graph &&
        Backs(d.graph, w, c);
  }
}

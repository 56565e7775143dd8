/**
 Runs in which no two inserted vertices commit to opposite orders: whatever the votes, nothing
 is ever rejected, no acceptance is overwritten, and every search succeeds.
 */
module ConflictFree {
  import opened Wrappers
  import opened Vertices
  import opened Ancestry
  import opened DagTypes
  import opened Voting
  import opened Insertion
  import opened Dags
  import opened Steps
  import opened Runs
  import opened Ballots
  import opened Safety

  /** No two vertices commit to opposite orders. */
  ghost predicate NoClash(g: Graph) {
    forall c :: c in Reg(g) && !c.IsUnity() ==> c.Flip() !in Reg(g)
  }

  ghost predicate NoneRejected(g: Graph, st: State) {
    forall c :: c in Reg(g) ==> !Rejected(st, c)
  }

  ghost predicate AcceptancesKept(g: Graph, st: State, st': State) {
    forall c :: c in Reg(g) && Accepted(st, c) ==> Accepted(st', c)
  }

  lemma PeacefulVote(cfg: Config, g: Graph, st: State, c: Constraint, e: Constraint)
    requires Grounded(g) && StateOk(g, st) && NoClash(g) && c in Reg(g) && e in Reg(g)
    ensures Dec(VoteFor(cfg, g, st, c), e) ==
            if e == c && Accepts(cfg, g, Tally(g, st, c), c) then Some(true) else Dec(st, e)
  {
    hide StateOk, VoteFor, Accepts;
    assert forall d :: d in Reg(g) ==> d.Key() in st by { KeysOfReg(g, st); }
    VoteForFacts(cfg, g, st, c, e);
    if !c.IsUnity() && Below(g, c.Flip(), e) {
      if e.left in g { ACRegistered(g, e.left); }
      if e.right in g { ACRegistered(g, e.right); }
    }
  }

  ghost predicate AllRegistered(g: Graph, cs: seq<Constraint>) {
    forall c :: c in cs ==> c in Reg(g)
  }

  lemma {:induction false} PeacefulVoteAll(cfg: Config, g: Graph, st: State, cs: seq<Constraint>, preferred: bool)
    requires Grounded(g) && StateOk(g, st) && NoClash(g) && AllRegistered(g, cs) && NoneRejected(g, st)
    ensures NoneRejected(g, VoteAll(cfg, g, st, cs, preferred))
    ensures AcceptancesKept(g, st, VoteAll(cfg, g, st, cs, preferred))
  {
    hide StateOk, Grounded, NoClash, VoteFor, VoteAgainst, Dec;
    if cs != [] {
      var rest, c := cs[..|cs| - 1], cs[|cs| - 1];
      assert forall x :: x in rest ==> x in cs;
      var mid := VoteAll(cfg, g, st, rest, preferred);
      PeacefulVoteAll(cfg, g, st, rest, preferred);
      VoteAllStateOk(cfg, g, st, rest, preferred);
      forall e | e in Reg(g)
        ensures Dec(VoteOn(cfg, g, mid, c, preferred), e) == Dec(mid, e) ||
                Dec(VoteOn(cfg, g, mid, c, preferred), e) == Some(true)
      {
        if preferred { PeacefulVote(cfg, g, mid, c, e); } else { AgainstFacts(mid, c, e); }
      }
    }
  }

  lemma PeacefulRecord(d: Dag, h: VertexHash, preferred: bool, order: seq<VertexHash>)
    requires WellFormed(d) && h in d.pending && Legal(d, Vote(h, preferred, order))
    requires NoClash(d.graph) && NoneRejected(d.graph, d.state)
    ensures NoneRejected(d.graph, RecordVote(d, h, preferred, order).state)
    ensures AcceptancesKept(d.graph, d.state, RecordVote(d, h, preferred, order).state)
  {
    hide WellFormed, Legal, RecordVote, VoteAll, StateOk, Grounded, Ballot, Awarded, NoClash;
    RecordIsVoteAll(d, h, preferred, order);
    AwardedDec(d, h, preferred);
    var st, cs := Awarded(d, h, preferred), Ballot(d, h, preferred, order);
    BallotAllRegistered(d, h, preferred, order);
    PeacefulVoteAll(d.cfg, d.graph, st, cs, preferred);
  }

  lemma BallotAllRegistered(d: Dag, h: VertexHash, preferred: bool, order: seq<VertexHash>)
    requires WellFormed(d) && h in d.pending && Legal(d, Vote(h, preferred, order))
    ensures AllRegistered(d.graph, Ballot(d, h, preferred, order))
  {
    hide WellFormed, Legal, Ballot, Backs;
    forall c | c in Ballot(d, h, preferred, order)
      ensures c in Reg(d.graph)
    {
      BallotBacked(d, h, preferred, order, c);
    }
  }

  // ----- inserting -----

  /** Without clashes, a registered constraint with a conflict set was registered already. */
  lemma OldKeyOldConstraint(g: Graph, st: State, v: Vertex, c: Constraint)
    requires Grounded(g) && StateOk(g, st) && Joins(g, v) && NoClash(With(g, v))
    requires c in Reg(With(g, v)) && c.Key() in st
    ensures c in Reg(g)
  {
    KeyRegistered(g, st, c);
    GrownGraph(g, v);
  }

  lemma PeacefulPair(g: Graph, st: State, v: Vertex, c: Constraint)
    requires Grounded(g) && StateOk(g, st) && Joins(g, v) && NoClash(With(g, v)) && NoneRejected(g, st)
    requires c in Reg(g) || c in PC(v.parents)
    ensures Dec(InsertState(g, st, v), c) == Dec(st, c) && !Rejected(st, c)
  {
    hide StateOk, NoClash, InsertState;
    GrownGraph(g, v);
    if c.Key() in st {
      OldKeyOldConstraint(g, st, v, c);
      InsertKeeps(g, st, v, c);
      assert !Rejected(st, c);
    } else {
      KeysOfReg(g, st);
      OldConstraints(g, v, c);
      InsertPair(g, st, v, c, c);
    }
  }

  lemma PeacefulInsert(g: Graph, st: State, v: Vertex)
    requires Grounded(g) && StateOk(g, st) && Joins(g, v) && NoClash(With(g, v)) && NoneRejected(g, st)
    ensures NoneRejected(With(g, v), InsertState(g, st, v))
    ensures AcceptancesKept(g, st, InsertState(g, st, v))
    ensures Undecided(InsertState(g, st, v), Unity(v.hash))
  {
    hide StateOk, Grounded, Joins, NoClash, InsertState, Dec;
    GrownGraph(g, v);
    InsertUnity(g, st, v);
    forall c | c in Reg(g) || c in PC(v.parents)
      ensures Dec(InsertState(g, st, v), c) == Dec(st, c) && !Rejected(st, c)
    {
      PeacefulPair(g, st, v, c);
    }
  }

  // ----- every conflict-free run -----

  lemma PeacefulEvent(d: Dag, e: Event)
    requires WellFormed(d) && Legal(d, e) && NoClash(Next(d, e).graph) && NoneRejected(d.graph, d.state)
    ensures NoneRejected(Next(d, e).graph, Next(d, e).state)
    ensures AcceptancesKept(d.graph, d.state, Next(d, e).state)
  {
    hide WellFormed, Legal, Apply, RecordVote, Joins, Passes, Grounded, StateOk, InsertState, With, NoClash;
    GraphOf(d);
    match e
    case Submit(v) =>
      SubmitCases(d, v);
      if Passes(d, v) { PeacefulInsert(d.graph, d.state, v); }
    case Vote(h, preferred, order) =>
      VoteCases(d, h, preferred, order);
      if h in d.pending { PeacefulRecord(d, h, preferred, order); }
  }

  lemma ClashBefore(cfg: Config, v0: Vertex, evs: seq<Event>, n: nat)
    requires cfg.Valid() && IsGenesis(cfg, v0) && IsRun(cfg, v0, evs) && n <= |evs|
    requires NoClash(Run(cfg, v0, evs).graph)
    ensures IsRun(cfg, v0, evs[..n]) && NoClash(Run(cfg, v0, evs[..n]).graph)
  {
    hide WellFormed, IsRun, Run, DecGrows;
    RunGrows(cfg, v0, evs, n);
  }

  lemma {:induction false} NothingRejected(cfg: Config, v0: Vertex, evs: seq<Event>)
    requires cfg.Valid() && IsGenesis(cfg, v0) && IsRun(cfg, v0, evs) && NoClash(Run(cfg, v0, evs).graph)
    ensures NoneRejected(Run(cfg, v0, evs).graph, Run(cfg, v0, evs).state)
    decreases |evs|
  {
    hide WellFormed, Legal, Next, IsRun, NoClash, NoneRejected, GenesisState, First;
    if evs == [] {
      FirstPeaceful(cfg, v0);
    } else {
      RunStep(cfg, v0, evs);
      ClashBefore(cfg, v0, evs, |evs| - 1);
      NothingRejected(cfg, v0, evs[..|evs| - 1]);
      PeacefulEvent(Run(cfg, v0, evs[..|evs| - 1]), evs[|evs| - 1]);
    }
  }

  lemma FirstPeaceful(cfg: Config, v0: Vertex)
    requires cfg.Valid() && IsGenesis(cfg, v0)
    ensures NoneRejected(First(cfg, v0).graph, First(cfg, v0).state)
  {
    hide WellFormed, StateOk, GraphOk;
  }

  /** In a run without opposite orders, whatever the votes: no registered constraint is
      rejected, no acceptance is ever taken back, and the search behind a vote or a query
      succeeds for every inserted vertex. */
  lemma {:induction false} ConflictFreeFinality(cfg: Config, v0: Vertex, evs: seq<Event>, n: nat)
    requires cfg.Valid() && IsGenesis(cfg, v0) && IsRun(cfg, v0, evs) && n <= |evs|
    requires NoClash(Run(cfg, v0, evs).graph)
    ensures NoneRejected(Run(cfg, v0, evs).graph, Run(cfg, v0, evs).state)
    ensures IsRun(cfg, v0, evs[..n])
    ensures AcceptancesKept(Run(cfg, v0, evs[..n]).graph, Run(cfg, v0, evs[..n]).state, Run(cfg, v0, evs).state)
    ensures forall h :: h in Run(cfg, v0, evs).graph && h != cfg.genesis ==> SearchFor(Run(cfg, v0, evs), h).Ok?
    decreases |evs|
  {
    hide WellFormed, Legal, Next, IsRun, Run, NoClash, AcceptancesKept, SearchFor;
    NothingRejected(cfg, v0, evs);
    RunGrows(cfg, v0, evs, n);
    KeptOverRun(cfg, v0, evs, n);
    forall h | h in Run(cfg, v0, evs).graph && h != cfg.genesis
      ensures SearchFor(Run(cfg, v0, evs), h).Ok?
    {
      SearchForMeaning(Run(cfg, v0, evs), h);
      forall x | x in Run(cfg, v0, evs).graph
        ensures !Rejected(Run(cfg, v0, evs).state, Unity(x))
      {
        UnityKey(Run(cfg, v0, evs), x);
      }
    }
  }

  lemma {:induction false} KeptOverRun(cfg: Config, v0: Vertex, evs: seq<Event>, n: nat)
    requires cfg.Valid() && IsGenesis(cfg, v0) && IsRun(cfg, v0, evs) && n <= |evs|
    requires NoClash(Run(cfg, v0, evs).graph)
    ensures IsRun(cfg, v0, evs[..n])
    ensures AcceptancesKept(Run(cfg, v0, evs[..n]).graph, Run(cfg, v0, evs[..n]).state, Run(cfg, v0, evs).state)
    decreases |evs|
  {
    hide WellFormed, Legal, Next, IsRun, Run, NoClash, DecGrows, Extends;
    RunGrows(cfg, v0, evs, n);
    if n == |evs| {
      assert evs[..n] == evs;
      NothingRejected(cfg, v0, evs);
    } else {
      var before := evs[..|evs| - 1];
      RunStep(cfg, v0, evs);
      ClashBefore(cfg, v0, evs, |evs| - 1);
      RunGrows(cfg, v0, before, n);
      assert before[..n] == evs[..n];
      KeptOverRun(cfg, v0, before, n);
      NothingRejected(cfg, v0, before);
      PeacefulEvent(Run(cfg, v0, before), evs[|evs| - 1]);
      KeptStep(Run(cfg, v0, evs[..n]).graph, Run(cfg, v0, before).graph,
               Run(cfg, v0, evs[..n]).state, Run(cfg, v0, before).state, Run(cfg, v0, evs).state);
    }
  }

  lemma KeptStep(g: Graph, g': Graph, st: State, st': State, st'': State)
    requires Extends(g, g') && AcceptancesKept(g, st, st') && AcceptancesKept(g', st', st'')
    ensures AcceptancesKept(g, st, st'')
  {
    forall c | c in Reg(g)
      ensures c in Reg(g')
    {
      var h :| h in g && c in Commits(g[h]);
      RegMember(g', h, c);
    }
  }
}

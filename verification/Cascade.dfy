/**
 Runs in which all votes are positive and no two inserted vertices commit to opposite orders:
 an undecided constraint's counter equals its live confidence, and nothing is accepted before
 its constraint parents, also while one vote accepts a whole cascade of constraints.
 */
module Cascade {
  import opened Vertices
  import opened Ancestry
  import opened DagTypes
  import opened Voting
  import opened Insertion
  import opened Dags
  import opened Steps
  import opened Runs
  import opened Ballots
  import opened BallotOrder
  import opened Safety
  import opened ConflictFree

  // ----- one vote, constraint by constraint -----

  /** In a conflict set only one order is ever walked, so it is always the last one. */
  ghost predicate LastIsSelf(g: Graph, st: State) {
    forall c :: c in Reg(g) ==> c.Key() in st && st[c.Key()].last == c
  }

  /** Counters lag behind live support exactly by the votes still to be cast in this ballot. */
  ghost predicate CountsUpTo(g: Graph, st: State, cs: seq<Constraint>, i: nat)
    requires Grounded(g) && i <= |cs|
  {
    forall c :: c in Reg(g) && Undecided(st, c) ==>
      Count(st, c) + (if c in cs[i..] then 1 else 0) == |Supporters(g, st, c)|
  }

  ghost predicate BelowThreshold(cfg: Config, st: State, cs: seq<Constraint>) {
    forall c :: c in cs && Undecided(st, c) ==> Count(st, c) < cfg.threshAccepted
  }

  ghost predicate Tight(cfg: Config, g: Graph, st: State, cs: seq<Constraint>, i: nat)
    requires Grounded(g) && i <= |cs|
  {
    && NoneRejected(g, st) && AcceptanceClosed(g, st) && LastIsSelf(g, st)
    && CountsUpTo(g, st, cs, i) && BelowThreshold(cfg, st, cs[..i])
  }

  lemma SupportOfParent(g: Graph, st: State, c: Constraint, p: Constraint)
    requires Grounded(g) && p in ConstraintParents(g, c)
    ensures Supporters(g, st, c) <= Supporters(g, st, p)
    ensures |Supporters(g, st, c)| <= |Supporters(g, st, p)|
  {
    hide Backs, ConstraintParents, Chit;
    forall w | w in Supporters(g, st, c)
      ensures w in Supporters(g, st, p)
    {
      ParentBacked(g, w, c, p);
    }
    assert Supporters(g, st, p) == Supporters(g, st, c) + (Supporters(g, st, p) - Supporters(g, st, c));
  }

  /** Whoever reaches the full threshold has all its constraint parents accepted already. */
  lemma ThresholdAfterParents(cfg: Config, g: Graph, st: State, h: VertexHash, cs: seq<Constraint>, i: nat,
                              p: Constraint)
    requires Grounded(g) && h in g && i < |cs| && Orderly(g, st, h, cs) && Tight(cfg, g, st, cs, i)
    requires Undecided(st, cs[i]) && Count(st, cs[i]) + 1 >= cfg.threshAccepted
    requires p in ConstraintParents(g, cs[i]) && p in Reg(g)
    ensures Accepted(st, p)
  {
    hide Grounded, AcceptanceClosed, LastIsSelf, Supporters, Dec, Count, ConstraintParents, Backs;
    var c := cs[i];
    assert c in cs[i..];
    assert |Supporters(g, st, c)| == Count(st, c) + 1;
    SupportOfParent(g, st, c, p);
    ParentBacked(g, h, c, p);
    if Undecided(st, p) {
      assert p in cs && p in cs[..i];
      DistinctSplit(cs, i, p);
    }
    DecidedCases(st, p);
  }

  lemma VoteForLast(cfg: Config, g: Graph, st: State, c: Constraint, k: ConflictSetKey)
    requires Grounded(g) && c.Key() in st && k in st
    ensures k in VoteFor(cfg, g, st, c)
    ensures VoteFor(cfg, g, st, c)[k].last == if k == c.Key() then c else st[k].last
  {
  }

  /** Whatever a vote newly accepts has all its constraint parents accepted. */
  lemma ParentsFirst(cfg: Config, g: Graph, st: State, h: VertexHash, cs: seq<Constraint>, i: nat)
    requires Grounded(g) && h in g && i < |cs| && Orderly(g, st, h, cs) && Tight(cfg, g, st, cs, i)
    requires cs[i].Key() in st && st[cs[i].Key()].last == cs[i]
    requires Undecided(st, cs[i]) && Accepts(cfg, g, Tally(g, st, cs[i]), cs[i])
    ensures ParentsAccepted(g, st, cs[i])
  {
    hide Grounded, Tight, Orderly, Tally, Dec, Reg, ConstraintParents, Count;
    var c := cs[i];
    TallyFacts(g, st, c, c);
    ConstraintParentsRegistered(g, c);
    forall p | p in ConstraintParents(g, c)
      ensures Accepted(st, p)
    {
      TallyFacts(g, st, c, p);
      if Count(st, c) + 1 >= cfg.threshAccepted { ThresholdAfterParents(cfg, g, st, h, cs, i, p); }
    }
  }

  lemma ClosedStep(cfg: Config, g: Graph, st: State, h: VertexHash, cs: seq<Constraint>, i: nat)
    requires Grounded(g) && StateOk(g, st) && NoClash(g) && h in g && i < |cs|
    requires Orderly(g, st, h, cs) && Tight(cfg, g, st, cs, i) && cs[i] in Reg(g)
    ensures AcceptanceClosed(g, VoteFor(cfg, g, st, cs[i])) && NoneRejected(g, VoteFor(cfg, g, st, cs[i]))
  {
    hide Grounded, StateOk, NoClash, Orderly, Dec, Accepts, VoteFor, ConstraintParents, CountsUpTo, BelowThreshold,
         Tally;
    var c, st' := cs[i], VoteFor(cfg, g, st, cs[i]);
    forall e | e in Reg(g)
      ensures !Rejected(st', e)
      ensures Accepted(st, e) ==> Accepted(st', e)
      ensures Accepted(st', e) ==> ParentsAccepted(g, st, e)
    {
      PeacefulVote(cfg, g, st, c, e);
      DecidedCases(st, e);
      if e == c && Undecided(st, c) && Accepted(st', c) { ParentsFirst(cfg, g, st, h, cs, i); }
    }
    forall e | e in Reg(g) && Accepted(st', e)
      ensures ParentsAccepted(g, st', e)
    {
      ConstraintParentsRegistered(g, e);
    }
  }

  lemma LastStep(cfg: Config, g: Graph, st: State, c: Constraint)
    requires Grounded(g) && StateOk(g, st) && NoClash(g) && c in Reg(g) && LastIsSelf(g, st)
    ensures LastIsSelf(g, VoteFor(cfg, g, st, c))
  {
    hide Grounded, StateOk, VoteFor, Reg;
    forall e | e in Reg(g)
      ensures e.Key() in VoteFor(cfg, g, st, c) && VoteFor(cfg, g, st, c)[e.Key()].last == e
    {
      VoteForLast(cfg, g, st, c, e.Key());
      if e.Key() == c.Key() { KeyIdentifiesConflictSet(c, e); }
    }
  }

  lemma CountStep(cfg: Config, g: Graph, st: State, cs: seq<Constraint>, i: nat, e: Constraint)
    requires Grounded(g) && StateOk(g, st) && NoClash(g) && i < |cs| && Distinct(cs)
    requires Tight(cfg, g, st, cs, i) && cs[i] in Reg(g) && e in Reg(g)
    requires Undecided(VoteFor(cfg, g, st, cs[i]), e)
    ensures Count(VoteFor(cfg, g, st, cs[i]), e) + (if e in cs[i + 1..] then 1 else 0) == |Supporters(g, st, e)|
    ensures e in cs[..i + 1] ==> Count(VoteFor(cfg, g, st, cs[i]), e) < cfg.threshAccepted
  {
    hide Grounded, StateOk, NoClash, Dec, VoteFor, Reg, Supporters, AcceptanceClosed, NoneRejected, Count, Tally;
    var c := cs[i];
    KeysOfReg(g, st);
    VoteForFacts(cfg, g, st, c, e);
    PeacefulVote(cfg, g, st, c, e);
    TallyFacts(g, st, c, e);
    assert cs[i..] == [c] + cs[i + 1..] && cs[..i + 1] == cs[..i] + [c];
    if e == c { DistinctSplit(cs, i + 1, c); }
  }

  lemma OrderlyStep(cfg: Config, g: Graph, st: State, h: VertexHash, cs: seq<Constraint>, c: Constraint)
    requires Grounded(g) && StateOk(g, st) && NoClash(g) && c in Reg(g) && Orderly(g, st, h, cs)
    ensures Orderly(g, VoteFor(cfg, g, st, c), h, cs)
  {
    hide Grounded, StateOk, NoClash, Dec, VoteFor, Reg, Backs, ConstraintParents, Accepts;
    forall e | e in Reg(g) && Undecided(VoteFor(cfg, g, st, c), e)
      ensures Undecided(st, e)
    {
      PeacefulVote(cfg, g, st, c, e);
    }
  }

  lemma TightStep(cfg: Config, g: Graph, st: State, h: VertexHash, cs: seq<Constraint>, i: nat)
    requires Grounded(g) && StateOk(g, st) && NoClash(g) && h in g && i < |cs|
    requires Orderly(g, st, h, cs) && Tight(cfg, g, st, cs, i)
    ensures Tight(cfg, g, VoteFor(cfg, g, st, cs[i]), cs, i + 1)
    ensures Orderly(g, VoteFor(cfg, g, st, cs[i]), h, cs)
  {
    hide Grounded, StateOk, NoClash, Dec, VoteFor, Reg, Backs, ConstraintParents, Supporters, Count, AcceptanceClosed,
         NoneRejected, LastIsSelf, SameShape;
    var c, st' := cs[i], VoteFor(cfg, g, st, cs[i]);
    assert c in cs;
    ClosedStep(cfg, g, st, h, cs, i);
    LastStep(cfg, g, st, c);
    OrderlyStep(cfg, g, st, h, cs, c);
    VoteShape(cfg, g, st, c, true);
    ShapeKeepsChits(g, st, VoteFor(cfg, g, st, c));
    forall e | e in Reg(g) && Undecided(st', e)
      ensures Count(st', e) + (if e in cs[i + 1..] then 1 else 0) == |Supporters(g, st', e)|
      ensures e in cs[..i + 1] ==> Count(st', e) < cfg.threshAccepted
    {
      CountStep(cfg, g, st, cs, i, e);
    }
  }

  // ----- one vote -----

  /** Between votes: nothing lags. */
  ghost predicate Settled(d: Dag)
    requires Grounded(d.graph)
  {
    && NoneRejected(d.graph, d.state) && AcceptanceClosed(d.graph, d.state) && LastIsSelf(d.graph, d.state)
    && ExactCounts(d.graph, d.state)
  }

  ghost predicate ExactCounts(g: Graph, st: State)
    requires Grounded(g)
  {
    forall c :: c in Reg(g) && Undecided(st, c) ==> Count(st, c) == |Supporters(g, st, c)|
  }

  lemma TightFirst(d: Dag, h: VertexHash, order: seq<VertexHash>)
    requires WellFormed(d) && h in d.pending && Legal(d, Vote(h, true, order))
    requires Grounded(d.graph) && Settled(d)
    ensures Tight(d.cfg, d.graph, Awarded(d, h, true), Ballot(d, h, true, order), 0)
  {
    hide WellFormed, Legal, Ballot, Dec, Reg, Supporters, Backs, Grounded, Count;
    var cs := Ballot(d, h, true, order);
    AwardedDec(d, h, true);
    AwardedDec(d, h, true);
    assert cs[0..] == cs && cs[..0] == [];
    forall c | c in Reg(d.graph) && Undecided(Awarded(d, h, true), c)
      ensures Count(Awarded(d, h, true), c) + (if c in cs then 1 else 0) ==
          |Supporters(d.graph, Awarded(d, h, true), c)|
    {
      AwardedSupport(d, h, true, c);
      if c in cs { BallotBacked(d, h, true, order, c); }
      if Backs(d.graph, h, c) { BallotComplete(d, h, order, c); }
    }
  }

  /** Mid-vote, after any number of constraints of the ballot. */
  lemma {:induction false} TightMid(d: Dag, h: VertexHash, order: seq<VertexHash>, i: nat)
    requires WellFormed(d) && h in d.pending && Legal(d, Vote(h, true, order))
    requires Grounded(d.graph) && Settled(d) && NoClash(d.graph)
    requires i <= |Ballot(d, h, true, order)|
    ensures Tight(d.cfg, d.graph, Mid(d, h, true, Ballot(d, h, true, order), i), Ballot(d, h, true, order), i)
    ensures Orderly(d.graph, Mid(d, h, true, Ballot(d, h, true, order), i), h, Ballot(d, h, true, order))
  {
    hide WellFormed, Legal, Ballot, Tight, Orderly, NoClash, StateOk, Supporters;
    var cs := Ballot(d, h, true, order);
    if i == 0 {
      BallotOrderly(d, h, order);
      TightFirst(d, h, order);
    } else {
      TightMid(d, h, order, i - 1);
      MidStateOk(d, h, true, cs, i - 1);
      MidNext(d, h, true, cs, i - 1);
      PendingVertex(d, h);
      TightStep(d.cfg, d.graph, Mid(d, h, true, cs, i - 1), h, cs, i - 1);
    }
  }

  lemma SettledVote(d: Dag, h: VertexHash, order: seq<VertexHash>)
    requires WellFormed(d) && h in d.pending && Legal(d, Vote(h, true, order))
    requires Grounded(d.graph) && Settled(d) && NoClash(d.graph)
    ensures Settled(RecordVote(d, h, true, order))
  {
    hide WellFormed, Legal, Ballot, Orderly, NoClash, Grounded, Awarded, StateOk, Supporters, NoneRejected,
         AcceptanceClosed, LastIsSelf, VoteAll, Count, Dec;
    var cs := Ballot(d, h, true, order);
    MidLast(d, h, true, order);
    TightMid(d, h, order, |cs|);
    assert cs[|cs|..] == [];
  }

  // ----- inserting -----

  lemma NoSupportYet(d: Dag, c: Constraint)
    requires WellFormed(d) && c !in Reg(d.graph)
    ensures Grounded(d.graph) && Supporters(d.graph, d.state, c) == {}
  {
    hide WellFormed, Grounded, AC, Chit;
    GraphOf(d);
    forall w | w in d.graph
      ensures !Backs(d.graph, w, c)
    {
      ACRegistered(d.graph, w);
      UnityKey(d, w);
    }
  }

  lemma SettledInsertOne(d: Dag, v: Vertex, c: Constraint)
    requires WellFormed(d) && Grounded(d.graph) && Joins(d.graph, v) && Settled(d)
    requires NoClash(With(d.graph, v)) && c in Reg(With(d.graph, v)) && c !in Reg(d.graph)
    ensures c.Key() !in d.state
    ensures c.Key() in InsertState(d.graph, d.state, v) && InsertState(d.graph, d.state, v)[c.Key()].last == c
    ensures Count(InsertState(d.graph, d.state, v), c) == 0 && !Accepted(InsertState(d.graph, d.state, v), c)
  {
    hide WellFormed, Grounded, StateOk, NoClash, InsertState, Settled, Joins, With;
    GraphOf(d);
    GrownGraph(d.graph, v);
    if c.Key() in d.state { OldKeyOldConstraint(d.graph, d.state, v, c); }
    NewConstraint(d.graph, d.state, v, c);
    InsertUnity(d.graph, d.state, v);
    if c in PC(v.parents) { InsertPair(d.graph, d.state, v, c, c); }
  }

  lemma SettledInsertAny(d: Dag, v: Vertex, c: Constraint)
    requires WellFormed(d) && Grounded(d.graph) && Joins(d.graph, v) && Settled(d)
    requires NoClash(With(d.graph, v)) && c in Reg(With(d.graph, v))
    ensures Grounded(With(d.graph, v))
    ensures c.Key() in InsertState(d.graph, d.state, v) && InsertState(d.graph, d.state, v)[c.Key()].last == c
    ensures Undecided(InsertState(d.graph, d.state, v), c) ==>
              Count(InsertState(d.graph, d.state, v), c) ==
              |Supporters(With(d.graph, v), InsertState(d.graph, d.state, v), c)|
    ensures Accepted(InsertState(d.graph, d.state, v), c) ==>
        ParentsAccepted(With(d.graph, v), InsertState(d.graph, d.state, v), c)
  {
    hide WellFormed, Grounded, StateOk, NoClash, InsertState, Joins, With, Supporters, Dec, NoneRejected,
         ConstraintParents;
    GraphOf(d);
    GrownGrounded(d.graph, v);
    InsertSupport(d, v, c);
    if c in Reg(d.graph) {
      KeysOfReg(d.graph, d.state);
      InsertKeeps(d.graph, d.state, v, c);
      if Accepted(d.state, c) { ParentsStayAccepted(d, v, c); }
    } else {
      NoSupportYet(d, c);
      SettledInsertOne(d, v, c);
    }
  }

  lemma SettledInsert(d: Dag, v: Vertex)
    requires WellFormed(d) && Grounded(d.graph) && Joins(d.graph, v) && Settled(d) && NoClash(With(d.graph, v))
    ensures Grounded(With(d.graph, v)) && Settled(Insert(d, v))
  {
    hide WellFormed, Grounded, StateOk, NoClash, InsertState, Joins, With, Supporters, Dec, NoneRejected,
         ParentsAccepted, Reg, Count;
    GraphOf(d);
    GrownGrounded(d.graph, v);
    PeacefulInsert(d.graph, d.state, v);
    forall c | c in Reg(With(d.graph, v)) { SettledInsertAny(d, v, c); }
  }

  // ----- every run without conflicts and negative votes -----

  ghost predicate AllPositive(evs: seq<Event>) {
    forall e :: e in evs && e.Vote? ==> e.preferred
  }

  lemma SettledEvent(d: Dag, e: Event)
    requires WellFormed(d) && Legal(d, e) && Grounded(d.graph) && Settled(d) && NoClash(Next(d, e).graph)
    requires e.Vote? ==> e.preferred
    ensures Grounded(Next(d, e).graph) && Settled(Next(d, e))
  {
    hide WellFormed, Legal, Apply, RecordVote, Joins, Passes, Grounded, InsertState, With, NoClash, NoneRejected,
         AcceptanceClosed, LastIsSelf, ExactCounts;
    match e
    case Submit(v) =>
      SubmitCases(d, v);
      if Passes(d, v) { SettledInsert(d, v); }
    case Vote(h, preferred, order) =>
      VoteCases(d, h, preferred, order);
      if h in d.pending {
        SettledVote(d, h, order);
      }
  }

  lemma {:induction false} SettledRun(cfg: Config, v0: Vertex, evs: seq<Event>)
    requires cfg.Valid() && IsGenesis(cfg, v0) && IsRun(cfg, v0, evs)
    requires NoClash(Run(cfg, v0, evs).graph) && AllPositive(evs)
    ensures Grounded(Run(cfg, v0, evs).graph) && Settled(Run(cfg, v0, evs))
    decreases |evs|
  {
    hide WellFormed, Legal, Next, IsRun, NoClash;
    if evs == [] {
    } else {
      RunStep(cfg, v0, evs);
      ClashBefore(cfg, v0, evs, |evs| - 1);
      SettledRun(cfg, v0, evs[..|evs| - 1]);
      SettledEvent(Run(cfg, v0, evs[..|evs| - 1]), evs[|evs| - 1]);
    }
  }

  /** In such a run the counter of every undecided constraint is its live confidence, the size of
      the deduplicated progeny with chits, and every accepted constraint has all its constraint
      parents accepted. */
  lemma CountersAreConfidence(cfg: Config, v0: Vertex, evs: seq<Event>, c: Constraint)
    requires cfg.Valid() && IsGenesis(cfg, v0) && IsRun(cfg, v0, evs)
    requires NoClash(Run(cfg, v0, evs).graph) && AllPositive(evs) && c in Reg(Run(cfg, v0, evs).graph)
    ensures var d := Run(cfg, v0, evs);
            && Grounded(d.graph) && StateOk(d.graph, d.state) && c.Key() in d.state
            && !Rejected(d.state, c)
            && (Undecided(d.state, c) ==> Count(d.state, c) == |ProgenyWithChits(d.graph, d.state, c)|)
            && (Accepted(d.state, c) ==> ParentsAccepted(d.graph, d.state, c))
  {
    hide WellFormed, IsRun, Run, NoClash, Grounded, StateOk, Dec, Supporters, Count, ProgenyWithChits,
         ParentsAccepted, LastIsSelf;
    var d := Run(cfg, v0, evs);
    SettledRun(cfg, v0, evs);
    GraphOf(d);
    KeysOfReg(d.graph, d.state);
    ConfidenceCountsVertices(d.graph, d.state, c);
  }

  /** Nor is it accepted out of order at any moment of the cascade inside one further vote. */
  lemma ParentsFirstMidVote(cfg: Config, v0: Vertex, evs: seq<Event>, h: VertexHash, order: seq<VertexHash>, i: nat)
    requires cfg.Valid() && IsGenesis(cfg, v0) && IsRun(cfg, v0, evs)
    requires NoClash(Run(cfg, v0, evs).graph) && AllPositive(evs)
    requires h in Run(cfg, v0, evs).pending && Legal(Run(cfg, v0, evs), Vote(h, true, order))
    requires i <= |Ballot(Run(cfg, v0, evs), h, true, order)|
    ensures var d := Run(cfg, v0, evs);
            Grounded(d.graph) && AcceptanceClosed(d.graph, Mid(d, h, true, Ballot(d, h, true, order), i))
  {
    hide WellFormed, IsRun, Run, NoClash, Grounded, Settled, Ballot, Mid, Legal, Orderly, CountsUpTo, BelowThreshold,
         AcceptanceClosed;
    SettledRun(cfg, v0, evs);
    TightMid(Run(cfg, v0, evs), h, order, i);
  }
}

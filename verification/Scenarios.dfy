/** Building concrete runs: vertices inserted one by one, then votes of known effect. */
module Scenarios {
  import opened Wrappers
  import opened Vertices
  import opened Ancestry
  import opened DagTypes
  import opened Search
  import opened ActiveSets
  import opened Voting
  import opened Insertion
  import opened Dags
  import opened Steps
  import opened Runs
  import opened Ballots
  import opened Safety
  import Cascade
  import opened Streaks
  import opened ArrivalOrder
  import opened Overwriting

  // ----- small graphs -----

  lemma AncOne(g: Graph, h: VertexHash, p: VertexHash)
    requires Grounded(g) && h in g && g[h].parents == [p]
    ensures p in g && Anc(g, h) == {p} + Anc(g, p)
  {
    assert ParentsBelow(g, g[h]) && p in g[h].parents;
  }

  lemma AncTwo(g: Graph, h: VertexHash, p: VertexHash, q: VertexHash)
    requires Grounded(g) && h in g && g[h].parents == [p, q]
    ensures p in g && q in g && Anc(g, h) == {p, q} + Anc(g, p) + Anc(g, q)
  {
    hide Grounded, Anc;
    assert p in g[h].parents && q in g[h].parents;
    AncEqOfParent(g, h, p);
    AncEqOfParent(g, h, q);
    forall a | a in Anc(g, h)
      ensures a in {p, q} + Anc(g, p) + Anc(g, q)
    {
      var r := AncViaParent(g, a, h);
    }
  }

  lemma PairsOfTwo(a: VertexHash, b: VertexHash)
    requires a != b
    ensures PC([a, b]) == {Unity(a), Constraint(a, b), Unity(b)} && Distinct([a, b])
    ensures PC([a]) == {Unity(a)} && Distinct([a])
  {
    assert [a, b][1..] == [b] && [b][1..] == [] && [a][1..] == [];
    assert PC([b]) == {Unity(b)};
    assert PC([a]) == {Unity(a)};
  }

  lemma OnlyOrder(g: Graph, ps: seq<VertexHash>, e: Constraint)
    requires Grounded(g) && AllInserted(g, ps)
    requires forall c :: c in Ancestral(g, ps) ==> c.IsUnity() || c == e
    ensures !HasConflict(Ancestral(g, ps))
  {
  }

  // ----- insertions -----

  /** `v` is a valid vertex of `g`. */
  ghost predicate Good(g: Graph, v: Vertex) {
    && Grounded(g) && SanityChecks(v).Ok? && AllInserted(g, v.parents) && Fit(g, v)
  }

  /** A run without votes has inserted just `g`, and knows the vertices `early` besides. */
  ghost predicate At(cfg: Config, v0: Vertex, evs: seq<Event>, g: Graph, early: Graph) {
    && cfg.Valid() && IsGenesis(cfg, v0) && IsRun(cfg, v0, evs) && VoteFree(evs)
    && var d := Run(cfg, v0, evs);
       d.graph == g && d.vertex == early + g && d.pending == g - {cfg.genesis} && d.cfg == cfg
  }

  lemma Start(cfg: Config, v0: Vertex)
    requires cfg.Valid() && IsGenesis(cfg, v0)
    ensures At(cfg, v0, [], map[v0.hash := v0], map[])
  {
    hide WellFormed, Legal;
    RunOfNothing(cfg, v0);
    var g: Graph := map[v0.hash := v0];
    SameMap(map[], g - {v0.hash});
    SameMap(map[] + g, g);
  }

  lemma GrowStep(d: Dag, g: Graph, v: Vertex)
    requires WellFormed(d) && Untouched(d) && Good(g, v) && v.hash !in d.vertex && v.hash !in d.graph
    requires AllInserted(d.graph, v.parents) && Extends(d.graph, g)
    ensures Legal(d, Submit(v)) && Next(d, Submit(v)).graph == d.graph[v.hash := v]
    ensures Next(d, Submit(v)).vertex == d.vertex[v.hash := v]
    ensures Next(d, Submit(v)).pending == d.pending[v.hash := v]
  {
    hide WellFormed, Untouched, Fit, Passes, Insert, Grounded, AllInserted, TryInsert;
    GroundedRun(d);
    FitAgree(g, d.graph, v);
    PassesIsFit(d, v);
    TryInsertPasses(d, v);
    InsertParts(d, v);
  }

  /** Submitting a vertex valid in the final graph `all`, once its parents are there. */
  lemma Grow(cfg: Config, v0: Vertex, evs: seq<Event>, g: Graph, early: Graph, all: Graph, v: Vertex)
    requires At(cfg, v0, evs, g, early) && v.hash !in g && v.hash !in early && v.hash != cfg.genesis
    requires Good(all, v) && AllInserted(g, v.parents) && Extends(g, all)
    ensures At(cfg, v0, evs + [Submit(v)], g[v.hash := v], early)
  {
    hide WellFormed, Run, IsRun, Untouched, VoteFree, Legal, Next, Extends, AllInserted, Good;
    UntouchedRun(cfg, v0, evs);
    GrowStep(Run(cfg, v0, evs), all, v);
    SubmittedOneMore(evs, v);
    ExtendRun(cfg, v0, evs, Submit(v));
    SameMap((g - {cfg.genesis})[v.hash := v], g[v.hash := v] - {cfg.genesis});
    SameMap((early + g)[v.hash := v], early + g[v.hash := v]);
  }

  // ----- votes where one threshold is all there is -----

  /** Exactly the constraints `accepted` are decided, and accepted; exactly the constraints `ripe`
      are one vote from acceptance; the vertices `voted` have had their positive vote. */
  ghost predicate Books(d: Dag, accepted: set<Constraint>, ripe: set<Constraint>, voted: set<VertexHash>) {
    && (forall c :: Dec(d.state, c) == if c in accepted then Some(true) else None)
    && (forall c :: Ripe(d.cfg, d.state, c) <==> c in ripe)
    && (forall w :: Chit(d.state, Unity(w)) <==> w in voted)
    && d.pending == d.graph - {d.cfg.genesis} - voted
  }

  ghost predicate Stage(cfg: Config, v0: Vertex, evs: seq<Event>, g: Graph,
                        accepted: set<Constraint>, ripe: set<Constraint>, voted: set<VertexHash>)
  {
    && cfg.Valid() && cfg.threshAccepted == cfg.threshSafeEarlyCommit == 2
    && IsGenesis(cfg, v0) && IsRun(cfg, v0, evs)
    && Run(cfg, v0, evs).graph == g && Books(Run(cfg, v0, evs), accepted, ripe, voted)
  }

  lemma {:induction false} NothingRecorded(cfg: Config, v0: Vertex, evs: seq<Event>)
    requires cfg.Valid() && IsGenesis(cfg, v0) && IsRun(cfg, v0, evs) && VoteFree(evs)
    ensures Recorded(cfg, v0, evs) == {}
    decreases |evs|
  {
    hide WellFormed, Legal, Run, IsRun;
    if evs != [] {
      RunStep(cfg, v0, evs);
      NothingRecorded(cfg, v0, evs[..|evs| - 1]);
    }
  }

  lemma FirstStage(cfg: Config, v0: Vertex, evs: seq<Event>, g: Graph, early: Graph)
    requires At(cfg, v0, evs, g, early) && cfg.threshAccepted == cfg.threshSafeEarlyCommit == 2
    ensures Stage(cfg, v0, evs, g, {Unity(cfg.genesis)}, {}, {})
  {
    hide WellFormed, Legal, Run, IsRun, Dec, Chit, Recorded;
    UntouchedRun(cfg, v0, evs);
    NothingRecorded(cfg, v0, evs);
    forall c ensures !Ripe(cfg, Run(cfg, v0, evs).state, c) {
      NothingRecorded(cfg, v0, evs);
      AcceptanceNeedsQuorum(cfg, v0, evs, c);
    }
    forall w ensures !Chit(Run(cfg, v0, evs).state, Unity(w)) { ChitsAreRecorded(cfg, v0, evs, w); }
    SameMap(g - {cfg.genesis} - {}, g - {cfg.genesis});
  }

  /** The number of votes one more positive vote will have brought, after a list of votes. */
  lemma {:induction false} NextCountAfter(cfg: Config, g: Graph, st: State, cs: seq<Constraint>, c: Constraint)
    requires Grounded(g) && StateOk(g, st) && Walk(st, cs)
    ensures NextCount(VoteAll(cfg, g, st, cs, true), c) ==
            if c in cs then NextCount(st, c) + 1 else if c.Flip() in cs then 1 else NextCount(st, c)
  {
    hide Grounded, StateOk, Walk, VoteFor, NextCount;
    if cs != [] {
      var rest, last := cs[..|cs| - 1], cs[|cs| - 1];
      var mid := VoteAll(cfg, g, st, rest, true);
      WalkSplits(st, cs);
      NextCountAfter(cfg, g, st, rest, c);
      VoteAllStateOk(cfg, g, st, rest, true);
      NextCountStep(cfg, g, mid, last, c);
      KeyIdentifiesConflictSet(c, last);
    }
  }

  lemma NextCountStep(cfg: Config, g: Graph, st: State, e: Constraint, c: Constraint)
    requires Grounded(g) && StateOk(g, st) && e.Key() in st
    ensures NextCount(VoteFor(cfg, g, st, e), c) ==
            if c == e then NextCount(st, c) + 1 else if c.Flip() == e then 1 else NextCount(st, c)
  {
    hide Grounded, StateOk, VoteFor;
    KeysOfReg(g, st);
    KeyIdentifiesConflictSet(c, e);
    VoteForFacts(cfg, g, st, e, c);
    if c.Key() in st { Cascade.VoteForLast(cfg, g, st, e, c.Key()); }
  }

  ghost predicate InCone(g: Graph, ps: seq<VertexHash>, a: VertexHash)
    requires Grounded(g) && AllInserted(g, ps)
  {
    exists p :: p in ps && a in AncEq(g, p)
  }

  /** `order` is the undecided vertices above which, in the cone of `h`, all is accepted. */
  ghost predicate Visits(g: Graph, accepted: set<Constraint>, ps: seq<VertexHash>, order: seq<VertexHash>)
    requires Grounded(g) && AllInserted(g, ps)
  {
    var decided := set x | x in g && Unity(x) in accepted;
    && AncestorsClosed(g, decided, ps)
    && Distinct(order) && SortedByHeight(g, order)
    && (forall a :: a in order <==> a !in decided && InCone(g, ps, a))
  }

  /** What the vote on `h` walks: the undecided commitments of `h` and of the visited vertices. */
  ghost predicate Walking(g: Graph, accepted: set<Constraint>, h: VertexHash, order: seq<VertexHash>,
                          ballot: set<Constraint>)
    requires Grounded(g) && h in g && AllInserted(g, g[h].parents)
  {
    && Visits(g, accepted, g[h].parents, order)
    && (forall c :: c in ballot <==>
          c == Unity(h) || (c in Committed(g, Elements(order)) + PC(g[h].parents) && c !in accepted))
  }

  lemma StageLegal(d: Dag, accepted: set<Constraint>, ripe: set<Constraint>, voted: set<VertexHash>,
                   h: VertexHash, order: seq<VertexHash>, ballot: set<Constraint>)
    requires WellFormed(d) && Books(d, accepted, ripe, voted) && h in d.pending && h in d.graph
    requires Grounded(d.graph) && AllInserted(d.graph, d.graph[h].parents)
    requires Walking(d.graph, accepted, h, order, ballot)
    ensures Legal(d, Vote(h, true, order))
  {
    hide WellFormed, Grounded, Active, OpenAll, Anc, Antichain, AncestorsClosed, Legal, ActiveAncestors, Rooted,
         SortedByHeight, Distinct, Committed, PC, Commits;
    PendingVertex(d, h);
    assert DecidedIn(d.graph, d.state) == set x | x in d.graph && Unity(x) in accepted;
    RootedGraph(d);
    var g, ps, D := d.graph, d.graph[h].parents, DecidedIn(d.graph, d.state);
    PendingKnown(d, h);
    SearchOutcome(d.vertex, g, d.state, ps);
    forall a
      ensures a in Active(g, D, ps) <==> a in order
    {
      ActiveExact(g, D, ps, a);
    }
    assert Active(g, D, ps) == Elements(order);
    VoteIsLegal(d, h, true, order);
  }

  lemma PendingKnown(d: Dag, h: VertexHash)
    requires WellFormed(d) && h in d.pending && h in d.graph
    ensures AllInserted(d.graph, d.graph[h].parents) && AllInserted(d.vertex, d.graph[h].parents)
  {
    hide StateOk, ChildrenOk, FrontierOk, ChitsOk, Antichain, HeightIsNext, Accepted;
    assert VertexOk(d.cfg.genesis, d.graph, h);
  }

  lemma StageBallot(d: Dag, accepted: set<Constraint>, ripe: set<Constraint>, voted: set<VertexHash>,
                    h: VertexHash, order: seq<VertexHash>, ballot: set<Constraint>)
    requires WellFormed(d) && Books(d, accepted, ripe, voted) && h in d.pending && h in d.graph
    requires Grounded(d.graph) && AllInserted(d.graph, d.graph[h].parents)
    requires Walking(d.graph, accepted, h, order, ballot)
    ensures forall c :: c in Ballot(d, h, true, order) <==> c in ballot
  {
    hide WellFormed, Grounded, AncestorsClosed, SortedByHeight, Distinct, Committed, PC, Anc, Ripe, Chit, Dec,
         VoteList;
    forall c
      ensures c in Ballot(d, h, true, order) <==> c in ballot
    {
      VoteListMember(d, h, Awarded(d, h, true), order, c);
      AwardedFacts(d, h, true);
    }
  }

  /** A vote which accepts no pair: it accepts the ripe vertices it walks, makes ripe what else it
      walks, and takes ripeness from the opposites. */
  lemma QuietStep(d: Dag, accepted: set<Constraint>, ripe: set<Constraint>, voted: set<VertexHash>,
                  h: VertexHash, order: seq<VertexHash>, ballot: set<Constraint>, ripe': set<Constraint>)
    requires WellFormed(d) && d.cfg.threshAccepted == d.cfg.threshSafeEarlyCommit == 2
    requires NoOpenConflicts(d.cfg.genesis, d.graph, d.state)
    requires Books(d, accepted, ripe, voted) && h in d.pending && Legal(d, Vote(h, true, order))
    requires forall c :: c in Ballot(d, h, true, order) <==> c in ballot
    requires forall c: Constraint :: c in ballot && c in ripe ==> c.IsUnity()
    requires forall c: Constraint :: c in ripe' <==> c in ballot || (c in ripe && c.Flip() !in ballot)
    ensures Books(RecordVote(d, h, true, order), accepted + ballot * ripe, ripe', voted + {h})
  {
    hide WellFormed, Legal, Ballot, NoOpenConflicts, Grounded, StateOk, Awarded, RecordVote, Walk, Dec, Chit, Reach,
         NextCount, Accepted, Struck;
    GraphOf(d);
    var d' := RecordVote(d, h, true, order);
    RecordMaps(d, h, true, order);
    SameMap(d.graph - {d.cfg.genesis} - voted - {h}, d.graph - {d.cfg.genesis} - (voted + {h}));
    forall c
      ensures Dec(d'.state, c) == if c in accepted + ballot * ripe then Some(true) else None
      ensures Ripe(d.cfg, d'.state, c) <==> c in ripe'
    {
      QuietDecision(d, h, order, ballot, ripe, c);
      QuietRipe(d, h, order, c);
    }
    forall w ensures Chit(d'.state, Unity(w)) <==> w in voted + {h} { RecordChit(d, h, true, order, w); }
  }

  lemma QuietDecision(d: Dag, h: VertexHash, order: seq<VertexHash>, ballot: set<Constraint>, ripe: set<Constraint>,
                      c: Constraint)
    requires WellFormed(d) && h in d.pending && Legal(d, Vote(h, true, order))
    requires d.cfg.threshAccepted == d.cfg.threshSafeEarlyCommit && NoOpenConflicts(d.cfg.genesis, d.graph, d.state)
    requires forall e :: Ripe(d.cfg, d.state, e) <==> e in ripe
    requires forall e :: e in Ballot(d, h, true, order) <==> e in ballot
    requires forall e: Constraint :: e in ballot && e in ripe ==> e.IsUnity()
    ensures Dec(RecordVote(d, h, true, order).state, c) == if c in ballot * ripe then Some(true) else Dec(d.state, c)
  {
    hide WellFormed, Legal, Ballot, NoOpenConflicts, Grounded, StateOk, Awarded, RecordVote, Walk, Dec, Reach;
    BallotWalk(d, h, order);
    AwardedRipe(d, h, c);
    var cs, st := Ballot(d, h, true, order), Awarded(d, h, true);
    assert !Struck(d.cfg, d.graph, d.state, cs, c);
    if c in cs {
      var i: nat :| i < |cs| && cs[i] == c;
      UnstruckDecision(d.cfg, d.graph, st, cs, i);
      TurnCounter(d.cfg, d.graph, st, cs, i);
    } else {
      UnwalkedDecision(d.cfg, d.graph, st, cs, c);
    }
  }

  lemma QuietRipe(d: Dag, h: VertexHash, order: seq<VertexHash>, c: Constraint)
    requires WellFormed(d) && h in d.pending && Legal(d, Vote(h, true, order)) && d.cfg.threshAccepted == 2
    requires NoOpenConflicts(d.cfg.genesis, d.graph, d.state)
    ensures var cs := Ballot(d, h, true, order);
            Ripe(d.cfg, RecordVote(d, h, true, order).state, c) <==>
            c in cs || (Ripe(d.cfg, d.state, c) && c.Flip() !in cs)
  {
    hide WellFormed, Legal, Ballot, NoOpenConflicts, Grounded, StateOk, Awarded, RecordVote, Walk, Struck, Dec;
    BallotWalk(d, h, order);
    AwardedRipe(d, h, c);
    NextCountAfter(d.cfg, d.graph, Awarded(d, h, true), Ballot(d, h, true, order), c);
  }

  lemma RecordMaps(d: Dag, h: VertexHash, preferred: bool, order: seq<VertexHash>)
    requires Grounded(d.graph) && h in d.pending
    ensures var d' := RecordVote(d, h, preferred, order);
            d'.graph == d.graph && d'.vertex == d.vertex && d'.cfg == d.cfg && d'.pending == d.pending - {h}
  {
    hide VoteAll, VoteList, Award, Grounded;
  }

  /** One quiet vote of a run. */
  lemma Advance(cfg: Config, v0: Vertex, evs: seq<Event>, g: Graph,
                accepted: set<Constraint>, ripe: set<Constraint>, voted: set<VertexHash>,
                h: VertexHash, order: seq<VertexHash>, ballot: set<Constraint>, ripe': set<Constraint>)
    requires Stage(cfg, v0, evs, g, accepted, ripe, voted) && Grounded(g)
    requires h in g && h != cfg.genesis && h !in voted && AllInserted(g, g[h].parents)
    requires Walking(g, accepted, h, order, ballot)
    requires forall c: Constraint :: c in ballot && c in ripe ==> c.IsUnity()
    requires forall c: Constraint :: c in ripe' <==> c in ballot || (c in ripe && c.Flip() !in ballot)
    ensures Stage(cfg, v0, evs + [Vote(h, true, order)], g, accepted + ballot * ripe, ripe', voted + {h})
    ensures var d := Run(cfg, v0, evs);
            && h in d.pending && Legal(d, Vote(h, true, order))
            && (forall c :: c in Ballot(d, h, true, order) <==> c in ballot)
            && NoOpenConflicts(cfg.genesis, g, d.state)
            && Run(cfg, v0, evs + [Vote(h, true, order)]) == RecordVote(d, h, true, order)
  {
    hide WellFormed, Legal, Run, IsRun, Next, Grounded, Ballot, Walking, NoOpenConflicts, OppositesRejected,
         CountsSupported, AcceptancesBacked, Apply, RecordVote, AllInserted, Dec, Ripe, Chit;
    var d := Run(cfg, v0, evs);
    EveryRunSafe(cfg, v0, evs);
    StageLegal(d, accepted, ripe, voted, h, order, ballot);
    StageBallot(d, accepted, ripe, voted, h, order, ballot);
    QuietStep(d, accepted, ripe, voted, h, order, ballot, ripe');
    ExtendRun(cfg, v0, evs, Vote(h, true, order));
    NextIsApply(d, Vote(h, true, order));
    VoteCases(d, h, true, order);
    RecordMaps(d, h, true, order);
  }
}

/**
 One run in which decisions are overwritten both ways (src/consensus/dag.rs).  Vertices commit to
 one of the two orders of the same pair.  `LEFT` reaches the acceptance threshold while its order is
 undecided; its children then hide that order, so that preference falls behind support; when the
 opposite order is accepted, the accepted `LEFT` is rejected, and with it its sibling; and a later
 vote accepts the sibling all the same.  In between, a result for a child of the sibling cannot be
 recorded.  In the end a vertex which arrived too early, and conflicted when retried, would pass the
 checks, but no submission of another vertex retries it.
 */
module HardFork {
  import opened Wrappers
  import opened Vertices
  import opened Ancestry
  import opened DagTypes
  import opened Search
  import opened ActiveSets
  import opened Voting
  import opened Insertion
  import opened Dags
  import opened Steps
  import opened Runs
  import opened Ballots
  import opened Safety
  import opened Finality
  import opened Streaks
  import opened Arrivals
  import opened ArrivalOrder
  import opened Overwriting
  import opened Preference
  import opened Scenarios

  const CFG := Config(0, 2, 2)
  const ORDER := Constraint(1, 2)
  const OPPOSITE := Constraint(2, 1)

  const LEFT: VertexHash := 3
  const SIBLING: VertexHash := 4

  /** Genesis; the pair; two vertices for one order, five for the other; two children each of the
      former two. */
  ghost function Node(h: VertexHash): Vertex {
    if h == 0 then Vertex(h, VERSION, 0, [])
    else if h <= 2 then Vertex(h, VERSION, 1, [0])
    else if h <= 4 then Vertex(h, VERSION, 2, [1, 2])
    else if h <= 9 then Vertex(h, VERSION, 2, [2, 1])
    else if h <= 11 then Vertex(h, VERSION, 3, [LEFT])
    else Vertex(h, VERSION, 3, [SIBLING])
  }

  const JOIN := Vertex(14, VERSION, 3, [SIBLING, 5])
  const EARLY: Graph := map[14 := JOIN]

  ghost function UpTo(n: nat): Graph {
    map h: VertexHash | 0 <= h < n :: Node(h)
  }

  ghost function All(): Graph {
    UpTo(14)
  }

  /** The order a vertex commits to, directly or through its parent. */
  ghost function Side(h: VertexHash): Constraint {
    if 5 <= h <= 9 then OPPOSITE else ORDER
  }

  lemma AllGrounded()
    ensures Grounded(All())
  {
  }

  lemma Ancestors()
    ensures Grounded(All())
    ensures Anc(All(), 0) == {} && Anc(All(), 1) == {0} && Anc(All(), 2) == {0}
    ensures forall h: VertexHash :: 3 <= h <= 5 ==> Anc(All(), h) == {0, 1, 2}
  {
    hide Grounded, Anc;
    AllGrounded();
    AncOne(All(), 1, 0);
    AncOne(All(), 2, 0);
    AncTwo(All(), 3, 1, 2);
    AncTwo(All(), 4, 1, 2);
    AncTwo(All(), 5, 2, 1);
  }

  lemma OwnPairs(h: VertexHash, c: Constraint)
    requires h < 14
    ensures c in PC(Node(h).parents) && !c.IsUnity() <==> 3 <= h <= 9 && c == Side(h)
    ensures Distinct(Node(h).parents)
  {
    hide PC;
    assert PC([]) == {} by { EmptyPC([]); }
    PairsOfTwo(1, 2);
    PairsOfTwo(2, 1);
    PairsOfTwo(0, 1);
    PairsOfTwo(LEFT, 0);
    PairsOfTwo(SIBLING, 0);
  }

  lemma {:induction false} Line(h: VertexHash, c: Constraint)
    requires h < 14
    ensures Grounded(All()) && (c in AC(All(), h) && !c.IsUnity() <==> h >= 3 && c == Side(h))
  {
    hide AC, Grounded, PC;
    AllGrounded();
    ACViaParent(All(), h, c);
    OwnPairs(h, c);
    forall p | p in Node(h).parents
      ensures c in AC(All(), p) && !c.IsUnity() <==> p >= 3 && c == Side(p)
    {
      Line(p, c);
    }
    assert h >= 10 ==> Node(h).parents[0] in Node(h).parents;
  }

  lemma NodeFit(h: VertexHash)
    requires 1 <= h < 14
    ensures Grounded(All()) && AllInserted(All(), Node(h).parents) && Fit(All(), Node(h))
  {
    hide AC, Grounded, PC, Anc, HasConflict;
    Ancestors();
    assert Node(h).parents[0] in Node(h).parents;
    forall c | c in Ancestral(All(), Node(h).parents)
      ensures c.IsUnity() || c == Side(h)
    {
      ACViaParent(All(), h, c);
      Line(h, c);
    }
    OnlyOrder(All(), Node(h).parents, Side(h));
  }

  lemma NodeGood(h: VertexHash)
    requires 1 <= h < 14
    ensures Good(All(), Node(h))
  {
    hide Fit, Grounded, PC, AllInserted, All;
    NodeFit(h);
    OwnPairs(h, ORDER);
  }

  // ----- the insertions -----

  /** The join arrives first; it is retried after each of its parents. */
  ghost function Submissions(n: nat): seq<Event> {
    if n == 0 then [Submit(JOIN)]
    else Submissions(n - 1) + [Submit(Node(n))] + if n == SIBLING || n == 5 then [Submit(JOIN)] else []
  }

  lemma JoinFirst()
    ensures At(CFG, Node(0), [Submit(JOIN)], UpTo(1), EARLY)
  {
    hide WellFormed, Legal, Next, IsRun, Run;
    Start(CFG, Node(0));
    RunOfNothing(CFG, Node(0));
    var d := Run(CFG, Node(0), []);
    JoinWaits(d);
    SubmittedOneMore([], JOIN);
    ExtendRun(CFG, Node(0), [], Submit(JOIN));
    assert [] + [Submit(JOIN)] == [Submit(JOIN)];
    SameMap(map[0 := Node(0)], UpTo(1));
    SameMap(d.graph[14 := JOIN], EARLY + UpTo(1));
  }

  lemma JoinWaits(d: Dag)
    requires WellFormed(d) && d == Genesis(CFG, Node(0))
    ensures Legal(d, Submit(JOIN)) && var d' := Next(d, Submit(JOIN));
            d'.graph == d.graph && d'.vertex == d.vertex[14 := JOIN] && d'.pending == d.pending && d'.cfg == CFG
  {
    hide WellFormed, Passes, MapChild;
    GraphOf(d);
    NotThere(d);
    TryInsertFails(d, JOIN);
  }

  lemma NotThere(d: Dag)
    requires Grounded(d.graph) && SIBLING !in d.graph
    ensures SanityChecks(JOIN).Ok? && !AllInserted(d.graph, JOIN.parents) && !Passes(d, JOIN)
  {
    assert SIBLING in JOIN.parents;
  }

  /** The join commits, through its parents, to both orders. */
  lemma JoinConflicts()
    ensures Grounded(All()) && AllInserted(All(), JOIN.parents) && !Fit(All(), JOIN)
  {
    hide Grounded, AC;
    AllGrounded();
    Line(SIBLING, ORDER);
    Line(5, OPPOSITE);
    assert SIBLING in JOIN.parents && 5 in JOIN.parents;
    assert ORDER in Ancestral(All(), JOIN.parents) && ORDER.Flip() in Ancestral(All(), JOIN.parents);
  }

  /** Retrying the join changes nothing: a parent is missing, or its ancestry conflicts. */
  lemma JoinAgain(evs: seq<Event>, n: nat)
    requires At(CFG, Node(0), evs, UpTo(n), EARLY) && n <= 14
    ensures At(CFG, Node(0), evs + [Submit(JOIN)], UpTo(n), EARLY)
  {
    hide WellFormed, Run, IsRun, Untouched, VoteFree, Legal, Next, Passes, Fit, Grounded;
    var d := Run(CFG, Node(0), evs);
    UntouchedRun(CFG, Node(0), evs);
    PassesIsFit(d, JOIN);
    JoinConflicts();
    if Passes(d, JOIN) { FitAgree(d.graph, All(), JOIN); }
    KnownIsLegal(d, 14);
    RetryEffect(d, 14);
    SubmittedOneMore(evs, JOIN);
    ExtendRun(CFG, Node(0), evs, Submit(JOIN));
  }

  lemma {:induction false} Inserted(n: nat)
    requires n < 14
    ensures At(CFG, Node(0), Submissions(n), UpTo(n + 1), EARLY)
  {
    hide At, Good;
    if n == 0 {
      JoinFirst();
    } else {
      Inserted(n - 1);
      NodeGood(n);
      assert forall p :: p in Node(n).parents ==> p < n;
      Grow(CFG, Node(0), Submissions(n - 1), UpTo(n), EARLY, All(), Node(n));
      SameMap(UpTo(n)[n := Node(n)], UpTo(n + 1));
      if n == SIBLING || n == 5 {
        JoinAgain(Submissions(n - 1) + [Submit(Node(n))], n + 1);
      } else {
        assert Submissions(n) == Submissions(n - 1) + [Submit(Node(n))];
      }
    }
  }

  // ----- what the votes walk -----

  /** The vertex of the vote after `i` others ... */
  ghost function Voter(i: nat): VertexHash {
    if i == 0 then 5 else if i == 1 then LEFT else if i == 2 then 6 else if i == 3 then 12 else if i == 4 then 7
    else if i == 5 then 10 else if i == 6 then 11 else if i == 7 then 8 else if i == 8 then 9 else SIBLING
  }

  ghost function Turn(h: VertexHash): nat {
    if h == 5 then 0 else if h == LEFT then 1 else if h == 6 then 2 else if h == 12 then 3 else if h == 7 then 4
    else if h == 10 then 5 else if h == 11 then 6 else if h == 8 then 7 else if h == 9 then 8 else 9
  }

  /** ... the undecided ancestors it visits ... */
  ghost function Order(i: nat): seq<VertexHash> {
    if i < 2 then [1, 2] else if i == 3 then [SIBLING] else if i == 5 then [LEFT] else []
  }

  /** ... the orders it walks, none once `LEFT` hides them; and the one last walked before. */
  ghost function Orders(i: nat): set<Constraint> {
    if i == 6 then {} else if i == 1 || i == 3 || i == 5 then {ORDER} else {OPPOSITE}
  }

  ghost function LastOrders(i: nat): set<Constraint> {
    if i == 0 then {} else if i == 7 then {ORDER} else Orders(i - 1)
  }

  ghost function Unities(hs: set<VertexHash>): set<Constraint> {
    set h | h in hs :: Unity(h)
  }

  ghost function Voted(i: nat): set<VertexHash> {
    set h: VertexHash | h in All() && 3 <= h && Turn(h) < i
  }

  /** The vertices accepted after `i` votes, and those one vote from acceptance. */
  ghost function Safe(i: nat): set<VertexHash> {
    if i < 2 then {0} else if i < 6 then {0, 1, 2} else {0, 1, 2, LEFT}
  }

  ghost function Close(i: nat): set<VertexHash> {
    Voted(i) + if i == 0 then {} else if i <= 3 then {1, 2} else {1, 2, SIBLING}
  }

  ghost function Walked(i: nat): set<Constraint> {
    Unities({Voter(i)} + Elements(Order(i))) + Orders(i)
  }

  ghost function Ripening(i: nat): set<Constraint> {
    Unities(Close(i)) + LastOrders(i)
  }

  lemma Cone(h: VertexHash, a: VertexHash)
    requires 3 <= h < 14
    ensures Grounded(All()) && AllInserted(All(), Node(h).parents)
    ensures InCone(All(), Node(h).parents, a) <==> a <= 2 || (h >= 10 && a == Node(h).parents[0])
  {
    hide Grounded, Anc, All;
    Ancestors();
    Inside();
    assert Node(h).parents[0] in Node(h).parents && (h <= 9 ==> Node(h).parents[1] in Node(h).parents);
  }

  lemma Inside()
    ensures forall h: VertexHash :: h in All() <==> h < 14
    ensures forall h: VertexHash :: h < 14 ==> All()[h] == Node(h)
  {
  }

  lemma AllClosed(i: nat)
    requires i <= 8
    ensures Grounded(All()) && AllInserted(All(), Node(Voter(i)).parents)
    ensures var decided := set x | x in All() && Unity(x) in Unities(Safe(i));
            AncestorsClosed(All(), decided, Node(Voter(i)).parents)
  {
    hide Grounded, Anc, All;
    Ancestors();
    Inside();
  }

  lemma WalksHere(i: nat)
    requires i <= 8
    ensures Grounded(All()) && AllInserted(All(), Node(Voter(i)).parents)
    ensures Visits(All(), Unities(Safe(i)), Node(Voter(i)).parents, Order(i))
  {
    hide Grounded, Anc, All, InCone, AncestorsClosed;
    Inside();
    AllClosed(i);
    forall a { Cone(Voter(i), a); }
    assert forall a: VertexHash :: Unity(a) in Unities(Safe(i)) <==> a in Safe(i);
  }

  lemma CommittedThere(i: nat, c: Constraint)
    requires i <= 8
    ensures c in Committed(All(), Elements(Order(i))) <==>
            if i < 2 then c == Unity(0) else (i == 3 || i == 5) && c in {Unity(1), Unity(2), ORDER}
  {
    hide All, PC;
    Inside();
    PairsOfTwo(0, 1);
    PairsOfTwo(1, 2);
    var met := Elements(Order(i));
    assert PC(Node(1).parents) == PC(Node(2).parents) == {Unity(0)};
    assert PC(Node(LEFT).parents) == PC(Node(SIBLING).parents) == {Unity(1), ORDER, Unity(2)};
    if i < 2 {
      assert 1 in met && forall a :: a in met ==> a == 1 || a == 2;
    } else if i == 3 || i == 5 {
      assert Order(i)[0] in met && forall a :: a in met ==> a == LEFT || a == SIBLING;
    } else {
      assert forall a :: a !in met;
    }
  }

  lemma OwnThere(i: nat)
    requires i <= 8
    ensures PC(Node(Voter(i)).parents) ==
            if i == 3 then {Unity(SIBLING)} else if i == 5 || i == 6 then {Unity(LEFT)}
            else {Unity(1), Unity(2)} + Orders(i)
  {
    hide PC;
    PairsOfTwo(1, 2);
    PairsOfTwo(2, 1);
    PairsOfTwo(LEFT, 0);
    PairsOfTwo(SIBLING, 0);
  }

  lemma WalkedThere(i: nat, c: Constraint)
    requires i <= 8
    ensures c in Walked(i) <==>
            c == Unity(Voter(i)) ||
            (c in Committed(All(), Elements(Order(i))) + PC(Node(Voter(i)).parents) && c !in Unities(Safe(i)))
  {
    hide All, PC, Committed;
    OwnThere(i);
    CommittedThere(i, c);
  }

  lemma Walks(i: nat)
    requires i <= 8
    ensures Grounded(All()) && AllInserted(All(), Node(Voter(i)).parents) && Voter(i) in All()
    ensures All()[Voter(i)] == Node(Voter(i))
    ensures Walking(All(), Unities(Safe(i)), Voter(i), Order(i), Walked(i))
  {
    hide Grounded, All, PC, Visits, Committed, Walked, Unities, Safe, Order, Elements;
    WalksHere(i);
    Inside();
    forall c { WalkedThere(i, c); }
  }

  // ----- the votes -----

  ghost function Events(i: nat): seq<Event> {
    if i == 0 then Submissions(13) else Events(i - 1) + [Vote(Voter(i - 1), true, Order(i - 1))]
  }

  ghost predicate Staged(i: nat) {
    && Stage(CFG, Node(0), Events(i), All(), Unities(Safe(i)), Ripening(i), Voted(i))
    && Run(CFG, Node(0), Events(i)).vertex == EARLY + All()
  }

  /** The next vote is legal, and it walks what is listed for it. */
  ghost predicate Moves(i: nat) {
    && IsRun(CFG, Node(0), Events(i)) && IsRun(CFG, Node(0), Events(i + 1))
    && var d := Run(CFG, Node(0), Events(i));
       && d.graph == All() && Grounded(d.graph)
       && Voter(i) in d.pending && Legal(d, Vote(Voter(i), true, Order(i)))
       && (forall c :: c in Ballot(d, Voter(i), true, Order(i)) <==> c in Walked(i))
       && NoOpenConflicts(CFG.genesis, d.graph, d.state)
       && Run(CFG, Node(0), Events(i + 1)) == RecordVote(d, Voter(i), true, Order(i))
  }

  lemma Sums(i: nat)
    requires i <= 7
    ensures Voted(i) + {Voter(i)} == Voted(i + 1)
    ensures Unities(Safe(i)) + Walked(i) * Ripening(i) == Unities(Safe(i + 1))
    ensures forall c: Constraint :: c in Walked(i) && c in Ripening(i) ==> c.IsUnity()
  {
  }

  lemma Ripens(i: nat, c: Constraint)
    requires i <= 7
    ensures c in Ripening(i + 1) <==> c in Walked(i) || (c in Ripening(i) && c.Flip() !in Walked(i))
  {
  }

  lemma OneVote(i: nat)
    requires i <= 7 && Staged(i)
    ensures Moves(i) && Staged(i + 1)
  {
    hide Stage, Walking, All, Grounded, AllInserted, Run, IsRun, Books, RecordVote, Legal, WellFormed, Ballot,
         NoOpenConflicts, Walked, Ripening, Safe, Unities, Voted, Voter, Order, Node, Submissions;
    StageRun(i);
    Walks(i);
    Sums(i);
    forall c { Ripens(i, c); }
    Unvoted(i);
    Advance(CFG, Node(0), Events(i), All(), Unities(Safe(i)), Ripening(i), Voted(i), Voter(i), Order(i), Walked(i),
            Ripening(i + 1));
    ExtendRun(CFG, Node(0), Events(i), Vote(Voter(i), true, Order(i)));
    RecordMaps(Run(CFG, Node(0), Events(i)), Voter(i), true, Order(i));
  }

  lemma Unvoted(i: nat)
    requires i <= 8
    ensures Voter(i) !in Voted(i) && Voter(i) != 0
  {
  }

  lemma StageRun(i: nat)
    requires Staged(i)
    ensures CFG.Valid() && IsGenesis(CFG, Node(0)) && IsRun(CFG, Node(0), Events(i))
    ensures Run(CFG, Node(0), Events(i)).graph == All() && Run(CFG, Node(0), Events(i)).vertex == EARLY + All()
    ensures Run(CFG, Node(0), Events(i)).pending == All() - {0} - Voted(i)
    ensures forall c :: Dec(Run(CFG, Node(0), Events(i)).state, c) == if c in Unities(Safe(i)) then Some(true) else None
    ensures forall c :: Ripe(CFG, Run(CFG, Node(0), Events(i)).state, c) <==> c in Ripening(i)
    ensures forall w :: Chit(Run(CFG, Node(0), Events(i)).state, Unity(w)) <==> w in Voted(i)
  {
    hide All, Run, IsRun, Voted, Dec, Ripe, Unities, Safe, Ripening, Chit;
  }

  lemma {:induction false} Stages(i: nat)
    requires i <= 8
    ensures Staged(i) && (i > 0 ==> Moves(i - 1))
  {
    hide Staged, Moves, At;
    if i == 0 {
      Inserted(13);
      NothingVoted();
    } else {
      Stages(i - 1);
      OneVote(i - 1);
    }
  }

  lemma NothingVoted()
    requires At(CFG, Node(0), Events(0), UpTo(14), EARLY)
    ensures Staged(0)
  {
    hide Run, IsRun, Books, At, Node, Submissions, Events, UpTo;
    assert Unities(Safe(0)) == {Unity(0)} && Voted(0) == {} && Ripening(0) == {};
    AtKnown();
    FirstStage(CFG, Node(0), Events(0), UpTo(14), EARLY);
  }

  lemma AtKnown()
    requires At(CFG, Node(0), Events(0), UpTo(14), EARLY)
    ensures Run(CFG, Node(0), Events(0)).vertex == EARLY + All()
  {
    hide Run, IsRun, Node, Events, UpTo;
  }

  // ----- preference falls behind -----

  ghost function Backers(i: nat, c: Constraint): set<VertexHash> {
    set h | h in Voted(i) && Side(h) == c
  }

  lemma Supports(i: nat, c: Constraint)
    requires Staged(i) && (c == ORDER || c == OPPOSITE)
    ensures Grounded(All()) && Supporters(All(), Run(CFG, Node(0), Events(i)).state, c) == Backers(i, c)
  {
    hide Run, IsRun, Grounded, AC, All, Staged, Chit, Events, Turn, Node;
    AllGrounded();
    StageRun(i);
    Inside();
    forall w | w in All() ensures Backs(All(), w, c) <==> w >= 3 && Side(w) == c { Line(w, c); }
  }

  /** The opposite never has fewer backers, until the seventh vote, whose order `LEFT` hides. */
  lemma Sizes(i: nat)
    requires i <= 7
    ensures i > 0 ==> |Backers(i, OPPOSITE)| == (i + 1) / 2 - if i == 7 then 1 else 0
    ensures |Backers(i, ORDER)| == if i == 7 then 4 else i / 2
  {
    hide All;
    Inside();
    assert Backers(i, ORDER) ==
           if i <= 1 then {} else if i <= 3 then {3} else if i <= 5 then {3, 12} else if i == 6 then {3, 12, 10}
           else {3, 12, 10, 11};
    assert Backers(i, OPPOSITE) ==
           if i == 0 then {} else if i <= 2 then {5} else if i <= 4 then {5, 6} else {5, 6, 7};
  }

  /** After `i` votes the opposite is the preferred order. */
  ghost predicate Prefers(i: nat) {
    && Staged(i)
    && var st := Run(CFG, Node(0), Events(i)).state;
       OPPOSITE.Key() in st && st[OPPOSITE.Key()].preferred == OPPOSITE
  }

  lemma {:induction false} Preferred(i: nat)
    requires 1 <= i <= 7
    ensures Prefers(i)
  {
    hide Moves, Staged, Prefers;
    Stages(i);
    Stages(i - 1);
    if i > 1 { Preferred(i - 1); }
    if i == 7 { Unwalked(); } else { PreferredNext(i - 1); }
  }

  lemma Unwalked()
    requires Moves(6) && Prefers(6) && Staged(6) && Staged(7)
    ensures Prefers(7)
  {
    hide All, Grounded, Run, IsRun, Ballot, NoOpenConflicts, RecordVote, Legal, WellFormed, Stage, Node, Events;
    StageRun(6);
    PairUnwalked(Run(CFG, Node(0), Events(6)), 11, [], OPPOSITE);
  }

  lemma PairWalked(i: nat, c: Constraint)
    requires i < 6 && c == if i % 2 == 0 then OPPOSITE else ORDER
    ensures c in Walked(i) && c !in Unities(Safe(i + 1)) && c.Flip() !in Unities(Safe(i + 1))
  {
  }

  lemma PreferredNext(i: nat)
    requires i < 6 && Moves(i) && Staged(i) && Staged(i + 1) && (i > 0 ==> Prefers(i))
    ensures Prefers(i + 1)
  {
    hide All, Grounded, Run, IsRun, Ballot, NoOpenConflicts, RecordVote, Legal, WellFormed, Supporters, Backs, Dec,
         Ripe, Chit, OnceAtMost, Struck, Stage, Staged, Node, Submissions, Order, Voter, Backers, Walked, Ripening,
         Voted, Unities, Safe;
    var c := if i % 2 == 0 then OPPOSITE else ORDER;
    PairWalked(i, c);
    StageRun(i);
    var d := Run(CFG, Node(0), Events(i));
    StageRun(i + 1);
    BallotOnce(CFG, Node(0), Events(i), Voter(i), true, Order(i), c);
    PairAfter(d, Voter(i), Order(i), c);
    Supports(i + 1, ORDER);
    Supports(i + 1, OPPOSITE);
    Sizes(i + 1);
    assert c.Key() == OPPOSITE.Key() && Undecided(Run(CFG, Node(0), Events(i + 1)).state, c);
    assert Run(CFG, Node(0), Events(i + 1)) == RecordVote(d, Voter(i), true, Order(i));
  }

  /** The children of `LEFT` no longer walk the order they back: it has more support, and the
      opposite is still preferred. */
  lemma PreferenceBehind()
    ensures IsRun(CFG, Node(0), Events(7)) && Grounded(All())
    ensures var d := Run(CFG, Node(0), Events(7));
            && d.graph == All() && Undecided(d.state, ORDER) && Undecided(d.state, OPPOSITE)
            && |Supporters(All(), d.state, ORDER)| > |Supporters(All(), d.state, OPPOSITE)|
            && ORDER.Key() in d.state && d.state[ORDER.Key()].preferred == OPPOSITE
  {
    hide All, Grounded, Supporters, Run, IsRun, Stage, Node, Events, Backers, Chit;
    Preferred(7);
    StageRun(7);
    Supports(7, ORDER);
    Supports(7, OPPOSITE);
    Sizes(7);
  }

  // ----- acceptance taken back -----

  lemma RunTo(i: nat)
    requires i <= 8
    ensures Staged(i) && CFG.Valid() && IsGenesis(CFG, Node(0)) && IsRun(CFG, Node(0), Events(i))
  {
    hide Staged, Moves, Run, IsRun, Node, Events, All, Unities, Voted, Ripening, Dec, Chit, Ripe;
    Stages(i);
    StageRun(i);
  }

  lemma {:induction false} Keeps(i: nat)
    requires i <= 8
    ensures IsGenesis(CFG, Node(0)) && IsRun(CFG, Node(0), Events(i)) && KeepingRun(CFG, Node(0), Events(i))
  {
    hide Staged, Run, IsRun, Node, KeepingRun, Submissions, IsGenesis, Voter, Order;
    RunTo(i);
    if i == 0 {
      Inserted(13);
      VoteFreeKeeps(CFG, Node(0), Submissions(13));
    } else {
      RunTo(i - 1);
      Keeps(i - 1);
      KeepsOne(i);
    }
  }

  lemma KeepsOne(i: nat)
    requires 1 <= i <= 8 && Staged(i) && Staged(i - 1) && IsGenesis(CFG, Node(0))
    requires IsRun(CFG, Node(0), Events(i)) && IsRun(CFG, Node(0), Events(i - 1))
    requires KeepingRun(CFG, Node(0), Events(i - 1))
    ensures KeepingRun(CFG, Node(0), Events(i))
  {
    hide Staged, All, Run, IsRun, Dec, Node, Submissions, Order, Voter, Ripening, Voted, Ripe, Chit, KeepingRun;
    StageRun(i - 1);
    StageRun(i);
    assert Events(i) == Events(i - 1) + [Vote(Voter(i - 1), true, Order(i - 1))];
    KeepsOneMore(Events(i - 1), Vote(Voter(i - 1), true, Order(i - 1)));
  }

  lemma KeepsOneMore(evs: seq<Event>, e: Event)
    requires IsGenesis(CFG, Node(0)) && IsRun(CFG, Node(0), evs) && IsRun(CFG, Node(0), evs + [e])
    requires KeepingRun(CFG, Node(0), evs)
    requires KeepsDecisions(Run(CFG, Node(0), evs).state, Run(CFG, Node(0), evs + [e]).state)
    ensures KeepingRun(CFG, Node(0), evs + [e])
  {
    hide Run, IsRun, Node, KeepsDecisions;
    assert (evs + [e])[..|evs + [e]| - 1] == evs;
  }

  /** The next vote walks the opposite, one vote from acceptance. */
  lemma Ninth()
    ensures Staged(8) && Moves(8)
  {
    hide Stage, Walking, All, Grounded, AllInserted, RecordVote, Legal, WellFormed, Ballot, NoOpenConflicts,
         OppositesRejected, CountsSupported, AcceptancesBacked, Walked, Voter, Order, Submissions, Apply;
    RunTo(8);
    StageRun(8);
    Walks(8);
    Unvoted(8);
    var d := Run(CFG, Node(0), Events(8));
    EveryRunSafe(CFG, Node(0), Events(8));
    StageLegal(d, Unities(Safe(8)), Ripening(8), Voted(8), Voter(8), Order(8), Walked(8));
    StageBallot(d, Unities(Safe(8)), Ripening(8), Voted(8), Voter(8), Order(8), Walked(8));
    ExtendRun(CFG, Node(0), Events(8), Vote(Voter(8), true, Order(8)));
    NextIsApply(d, Vote(Voter(8), true, Order(8)));
    VoteCases(d, Voter(8), true, Order(8));
  }

  /** What lies below the order of `LEFT`. */
  lemma Below(h: VertexHash)
    requires h < 14
    ensures Grounded(All()) && (Unity(h) in Reach(All(), ORDER) <==> h >= 3 && Side(h) == ORDER)
    ensures ORDER in Reach(All(), ORDER)
  {
    hide AC, All;
    Inside();
    Line(h, ORDER);
    ReachedThrough(All(), ORDER, h);
  }

  lemma NinthStrikes(e: Constraint)
    requires Staged(8) && Moves(8)
    ensures var d := Run(CFG, Node(0), Events(8));
            Struck(CFG, All(), d.state, Ballot(d, 9, true, []), e) <==> e in Reach(All(), ORDER)
  {
    hide All, Grounded, Run, IsRun, Ballot, NoOpenConflicts, RecordVote, Legal, WellFormed, Reach, Stage, Node, Events,
         Ripe, Staged;
    StageRun(8);
    assert Order(8) == [] && OPPOSITE in Walked(8) && OPPOSITE in Ripening(8);
    assert forall c :: c in Walked(8) ==> c == Unity(9) || c == OPPOSITE;
  }

  lemma NinthDecides(e: Constraint)
    requires Staged(8) && Moves(8) && e != Unity(9) && e != OPPOSITE
    ensures IsRun(CFG, Node(0), Events(8)) && IsRun(CFG, Node(0), Events(9))
    ensures Grounded(All())
    ensures Dec(Run(CFG, Node(0), Events(9)).state, e) ==
            if e in Reach(All(), ORDER) then Some(false) else Dec(Run(CFG, Node(0), Events(8)).state, e)
  {
    hide All, Grounded, Run, IsRun, Ballot, NoOpenConflicts, RecordVote, Legal, WellFormed, Reach, Stage, Node, Events,
         Ripe, Staged, Struck, Dec;
    StageRun(8);
    NinthStrikes(e);
    assert Order(8) == [] && e !in Walked(8);
    DecisionAfter(Run(CFG, Node(0), Events(8)), 9, [], e);
  }

  /** After the ninth vote: what is decided for good of the pair and below it, what still waits, and
      that `SIBLING`, rejected, is one vote from acceptance. */
  ghost predicate Between(d: Dag) {
    && WellFormed(d) && d.graph == All() && d.vertex == EARLY + All() && d.cfg == CFG
    && 4 in d.pending && 13 in d.pending
    && Accepted(d.state, Unity(0)) && Accepted(d.state, Unity(1)) && Accepted(d.state, Unity(2))
    && Rejected(d.state, ORDER) && Rejected(d.state, Unity(LEFT)) && Rejected(d.state, Unity(SIBLING))
    && !Rejected(d.state, Unity(5)) && Ripe(CFG, d.state, Unity(SIBLING))
  }

  lemma NinthLeaves()
    ensures Staged(8) && Moves(8) && IsRun(CFG, Node(0), Events(9)) && Between(Run(CFG, Node(0), Events(9)))
  {
    hide All, Grounded, Run, IsRun, Ballot, NoOpenConflicts, RecordVote, Legal, WellFormed, Reach, Stage, Node, Events,
         Ripe, Staged, Struck, Dec, Chit;
    Ninth();
    StageRun(8);
    Inside();
    forall h: VertexHash | h <= 5
      ensures Dec(Run(CFG, Node(0), Events(9)).state, Unity(h)) ==
              if h <= 2 then Some(true) else if h <= 4 then Some(false) else None
    {
      Below(h);
      NinthDecides(Unity(h));
    }
    Below(0);
    NinthDecides(ORDER);
    NinthRipe();
    EndOfNinth();
  }

  lemma NinthRipe()
    requires Staged(8) && Moves(8)
    ensures IsRun(CFG, Node(0), Events(9)) && Ripe(CFG, Run(CFG, Node(0), Events(9)).state, Unity(SIBLING))
  {
    hide All, Grounded, Run, IsRun, Ballot, NoOpenConflicts, RecordVote, Legal, WellFormed, Stage, Node, Events,
         Ripe, Staged, Dec, Chit;
    StageRun(8);
    assert Order(8) == [] && Unity(SIBLING) !in Walked(8) && Unity(SIBLING) in Ripening(8);
    QuietRipe(Run(CFG, Node(0), Events(8)), 9, [], Unity(SIBLING));
  }

  lemma EndOfNinth()
    requires Staged(8) && Moves(8)
    ensures IsRun(CFG, Node(0), Events(9))
    ensures var d := Run(CFG, Node(0), Events(9));
            && WellFormed(d) && d.graph == All() && d.vertex == EARLY + All() && d.cfg == CFG
            && SIBLING in d.pending && 13 in d.pending
  {
    hide All, Grounded, Run, IsRun, Ballot, NoOpenConflicts, RecordVote, Legal, WellFormed, Stage, Node, Events,
         Ripe, Staged, Dec, Chit;
    StageRun(8);
    Inside();
    assert SIBLING !in Voted(8) && 13 !in Voted(8);
    RecordMaps(Run(CFG, Node(0), Events(8)), 9, true, []);
  }

  /** Eight votes overwrite nothing, though they accept `LEFT` before the order it commits to; no
      constraint is rejected; and the ninth vote rejects `LEFT`. */
  lemma AcceptanceTakenBack()
    ensures IsRun(CFG, Node(0), Events(8)) && KeepingRun(CFG, Node(0), Events(8))
    ensures var st := Run(CFG, Node(0), Events(8)).state;
            && Accepted(st, Unity(LEFT)) && ORDER in PC(Node(LEFT).parents) && Undecided(st, ORDER)
            && forall c :: !Rejected(st, c)
    ensures IsRun(CFG, Node(0), Events(9)) && Rejected(Run(CFG, Node(0), Events(9)).state, Unity(LEFT))
  {
    hide All, Run, IsRun, WellFormed, Events, Staged, Moves, KeepingRun, PC, Ripe;
    Keeps(8);
    NinthLeaves();
    StageRun(8);
    OwnPairs(LEFT, ORDER);
  }

  // ----- a rejected vertex accepted -----

  lemma TenthSearch(d: Dag)
    requires Between(d)
    ensures Grounded(All()) && AllInserted(All(), Node(SIBLING).parents)
    ensures Active(All(), DecidedIn(All(), d.state), Node(SIBLING).parents) == {}
    ensures !HitsRejected(d.state, OpenAll(All(), DecidedIn(All(), d.state), Node(SIBLING).parents))
  {
    hide WellFormed, Grounded, Anc, Active, OpenAll, All, Ripe;
    Ancestors();
    Inside();
    var ps, D := Node(SIBLING).parents, DecidedIn(All(), d.state);
    forall a | a in Active(All(), D, ps) ensures false { ActiveSound(All(), D, ps, a); }
    forall a | a in OpenAll(All(), D, ps) ensures !Rejected(d.state, Unity(a)) { OpenIsAbove(D, ps, a); }
  }

  lemma TenthLegal(d: Dag)
    requires Between(d)
    ensures Legal(d, Vote(SIBLING, true, []))
  {
    hide WellFormed, Grounded, Active, OpenAll, DecidedIn, ActiveAncestors, Legal, All, Ripe, AllInserted, Antichain;
    TenthSearch(d);
    Inside();
    RootedGraph(d);
    PendingVertex(d, SIBLING);
    PendingKnown(d, SIBLING);
    SearchOutcome(d.vertex, All(), d.state, Node(SIBLING).parents);
    assert Elements<VertexHash>([]) == {};
    VoteIsLegal(d, SIBLING, true, []);
  }

  lemma OpenIsAbove(D: set<VertexHash>, ps: seq<VertexHash>, a: VertexHash)
    requires Grounded(All()) && AllInserted(All(), ps) && a in OpenAll(All(), D, ps)
    requires ps == Node(SIBLING).parents || ps == JOIN.parents
    ensures a in {0, 1, 2, SIBLING, 5} && (ps == Node(SIBLING).parents ==> a <= 2)
  {
    hide Grounded, Anc, Open, All;
    Ancestors();
  }

  lemma ChildBlocked(d: Dag)
    requires Between(d)
    ensures 13 in d.graph && SearchFor(d, 13) == Err(RejectedAncestor)
  {
    hide WellFormed, Open, OpenAll, SearchFor, Antichain, OpenConstraints, Grounded, AllInserted, All, Ripe;
    Inside();
    GraphOf(d);
    SearchForMeaning(d, 13);
    var D := DecidedIn(d.graph, d.state);
    assert SIBLING in Node(13).parents && SIBLING in Open(All(), D, SIBLING);
    OpenInOpenAll(All(), D, Node(13).parents, SIBLING);
  }

  /** All the tenth vote has to decide on is its vertex. */
  lemma TenthDecides(d: Dag, e: Constraint)
    requires Between(d) && NoOpenConflicts(0, d.graph, d.state) && Legal(d, Vote(SIBLING, true, []))
    requires e != Unity(SIBLING)
    ensures Dec(RecordVote(d, SIBLING, true, []).state, e) == Dec(d.state, e)
  {
    hide WellFormed, Grounded, Legal, RecordVote, All, Ballot, NoOpenConflicts, Ripe, Active, Reach, DecidedIn,
         Elements, OpenAll, HitsRejected, PC, AllInserted, Distinct;
    TenthSearch(d);
    Inside();
    PairsOfTwo(1, 2);
    forall c | c in Ballot(d, SIBLING, true, []) ensures c.IsUnity() { BallotContent(d, SIBLING, true, [], c); }
    if e in Ballot(d, SIBLING, true, []) { BallotContent(d, SIBLING, true, [], e); }
    DecisionAfter(d, SIBLING, [], e);
  }

  /** The tenth vote accepts its vertex, which was rejected. */
  lemma Tenth(d: Dag)
    requires Between(d) && NoOpenConflicts(0, d.graph, d.state)
    ensures Legal(d, Vote(SIBLING, true, [])) && 4 in d.pending
    ensures var d' := Next(d, Vote(SIBLING, true, []));
            && Accepted(d'.state, Unity(SIBLING)) && d' == RecordVote(d, SIBLING, true, [])
            && Grounded(d.graph) && d'.graph == All() && d'.vertex == EARLY + All() && d'.cfg == CFG
  {
    hide WellFormed, Grounded, Legal, Next, Apply, RecordVote, All, Ballot, NoOpenConflicts, Dec, NextCount;
    GraphOf(d);
    TenthLegal(d);
    NextIsApply(d, Vote(SIBLING, true, []));
    VoteCases(d, SIBLING, true, []);
    RejectedVertexAccepted(d, SIBLING, []);
    RecordMaps(d, SIBLING, true, []);
  }

  lemma JoinFits()
    ensures Grounded(All()) && AllInserted(All(), JOIN.parents) && Antichain(All(), JOIN.parents)
    ensures SanityChecks(JOIN).Ok? && HeightIsNext(All(), JOIN)
    ensures forall c :: c in PC(JOIN.parents) ==> c.IsUnity() || c == Constraint(SIBLING, 5)
  {
    hide Grounded, Anc, All, PC;
    Ancestors();
    Inside();
    PairsOfTwo(SIBLING, 5);
    assert SIBLING in JOIN.parents;
  }

  /** What the search for the join would return: no order but the opposite, and its own. */
  lemma JoinOpens(st: State, c: Constraint)
    requires Grounded(All()) && AllInserted(All(), JOIN.parents) && Rejected(st, ORDER)
    requires c in OpenConstraints(All(), st, JOIN.parents)
    ensures c.IsUnity() || c == OPPOSITE || c == Constraint(SIBLING, 5)
  {
    hide Grounded, Active, AC, All, PC, Anc;
    JoinFits();
    Inside();
    var D := DecidedIn(All(), st);
    if a :| a in Active(All(), D, JOIN.parents) && a in All() && c in PC(All()[a].parents) {
      OwnPairs(a, c);
    }
  }

  /** The conflict in the ancestry of the join has been decided, both ways, so it passes now. */
  lemma JoinReady(d: Dag)
    requires WellFormed(d) && d.graph == All() && d.vertex == EARLY + All() && Rejected(d.state, ORDER)
    requires forall h: VertexHash :: h in {0, 1, 2, SIBLING, 5} ==> !Rejected(d.state, Unity(h))
    ensures Grounded(d.graph) && 14 in Ready(d) && 14 !in d.graph
  {
    hide WellFormed, Grounded, OpenAll, OpenConstraints, DecidedIn, All, Antichain, SanityChecks, Dec;
    JoinFits();
    Inside();
    forall a | a in OpenAll(All(), DecidedIn(All(), d.state), JOIN.parents)
      ensures !Rejected(d.state, Unity(a))
    {
      OpenIsAbove(DecidedIn(All(), d.state), JOIN.parents, a);
    }
    forall c | c in OpenConstraints(All(), d.state, JOIN.parents)
      ensures c.IsUnity() || c == OPPOSITE || c == Constraint(SIBLING, 5)
    {
      JoinOpens(d.state, c);
    }
    assert Passes(d, JOIN);
  }

  /** The ninth vote rejects a vertex and the tenth accepts it.  In between, a child of the vertex
      waits for a result which cannot be recorded; and in the end a known vertex would pass the
      checks. */
  lemma DecisionsAreNotFinal()
    ensures IsRun(CFG, Node(0), Events(9)) && IsRun(CFG, Node(0), Events(10))
    ensures Rejected(Run(CFG, Node(0), Events(9)).state, Unity(SIBLING))
    ensures Accepted(Run(CFG, Node(0), Events(10)).state, Unity(SIBLING))
    ensures var d := Run(CFG, Node(0), Events(9));
            13 in d.pending && 13 in d.graph && SearchFor(d, 13) == Err(RejectedAncestor)
    ensures var d := Run(CFG, Node(0), Events(10));
            Grounded(d.graph) && 14 in Ready(d) && 14 !in d.graph
  {
    hide WellFormed, Run, IsRun, Legal, Next, Dec, SearchFor, Ready, Grounded, NoOpenConflicts, OppositesRejected,
         CountsSupported, AcceptancesBacked, Staged, Moves, All, RecordVote, Ripe;
    NinthLeaves();
    var d := Run(CFG, Node(0), Events(9));
    EveryRunSafe(CFG, Node(0), Events(9));
    ChildBlocked(d);
    Tenth(d);
    assert Events(10) == Events(9) + [Vote(SIBLING, true, [])];
    ExtendRun(CFG, Node(0), Events(9), Vote(SIBLING, true, []));
    forall e: Constraint | e != Unity(SIBLING)
      ensures Dec(RecordVote(d, SIBLING, true, []).state, e) == Dec(d.state, e)
    {
      TenthDecides(d, e);
    }
    JoinReady(Run(CFG, Node(0), Events(10)));
  }

  /** A ready vertex stays ready, and out of the graph, however many submissions of other vertices
      follow. */
  lemma {:induction false} ReadyStranded(cfg: Config, v0: Vertex, evs: seq<Event>, n: nat, h: VertexHash)
    requires cfg.Valid() && IsGenesis(cfg, v0) && IsRun(cfg, v0, evs) && n <= |evs| && IsRun(cfg, v0, evs[..n])
    requires forall i :: n <= i < |evs| ==> evs[i].Submit? && evs[i].v.hash != h
    requires Grounded(Run(cfg, v0, evs[..n]).graph) && h in Ready(Run(cfg, v0, evs[..n]))
    ensures Grounded(Run(cfg, v0, evs).graph) && h in Ready(Run(cfg, v0, evs)) && h !in Run(cfg, v0, evs).graph
    decreases |evs|
  {
    hide WellFormed, Legal, Ready, Next, Grounded, Waiting, Run, IsRun;
    GroundedRun(Run(cfg, v0, evs));
    if n == |evs| {
      assert evs[..n] == evs;
    } else {
      var before, v := evs[..|evs| - 1], evs[|evs| - 1].v;
      RunStep(cfg, v0, evs);
      assert before[..n] == evs[..n];
      ReadyStranded(cfg, v0, before, n, h);
      ReadyAfterSubmit(Run(cfg, v0, before), v);
    }
    ReadyNotInserted(Run(cfg, v0, evs));
  }
}

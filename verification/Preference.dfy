/**
 Which order of a pair is preferred (src/consensus/dag.rs: `record_query_result`, `query`).
 */
module Preference {
  import opened Wrappers
  import opened Vertices
  import opened Ancestry
  import opened DagTypes
  import opened Search
  import opened ActiveSets
  import opened Voting
  import opened Insertion
  import opened Dags
  import opened Steps
  import opened Runs
  import opened Ballots
  import opened BallotOrder
  import opened Safety
  import opened ConflictFree
  import opened Cascade
  import opened Finality
  import opened Overwriting
  import opened Queries
  import opened Streaks

  // ----- one vote -----

  ghost function Opposing(g: Graph, st: State, c: Constraint): nat
    requires Grounded(g)
  {
    if c.IsUnity() then 0 else |Supporters(g, st, c.Flip())|
  }

  // ----- preferences are registered constraints -----

  ghost predicate PreferredRegistered(g: Graph, st: State) {
    forall k :: k in st ==> st[k].preferred in Reg(g)
  }

  lemma VoteKeepsRegistered(cfg: Config, g: Graph, st: State, e: Constraint, preferred: bool)
    requires Grounded(g) && e in Reg(g) && e.Key() in st && PreferredRegistered(g, st)
    ensures PreferredRegistered(g, VoteOn(cfg, g, st, e, preferred))
  {
    hide Reg, Accepts, Supporters;
    VoteShape(cfg, g, st, e, preferred);
    forall k | k in st
      ensures VoteOn(cfg, g, st, e, preferred)[k].preferred in Reg(g)
    {
    }
  }

  lemma {:induction false} VotesKeepRegistered(cfg: Config, g: Graph, st: State, cs: seq<Constraint>, preferred: bool)
    requires Grounded(g) && StateOk(g, st) && AllRegistered(g, cs) && PreferredRegistered(g, st)
    ensures PreferredRegistered(g, VoteAll(cfg, g, st, cs, preferred))
  {
    hide Grounded, StateOk, Reg, VoteOn, PreferredRegistered;
    if cs != [] {
      var rest, e := cs[..|cs| - 1], cs[|cs| - 1];
      VotesKeepRegistered(cfg, g, st, rest, preferred);
      VoteAllStateOk(cfg, g, st, rest, preferred);
      KeysOfReg(g, VoteAll(cfg, g, st, rest, preferred));
      VoteKeepsRegistered(cfg, g, VoteAll(cfg, g, st, rest, preferred), e, preferred);
    }
  }

  lemma NewPreferred(g: Graph, st: State, v: Vertex, k: ConflictSetKey)
    requires Grounded(g) && StateOk(g, st) && Joins(g, v) && k !in st && k in InsertState(g, st, v)
    ensures InsertState(g, st, v)[k].preferred in Reg(With(g, v))
  {
    hide Grounded, StateOk, Reg;
    GrownGraph(g, v);
    ParentListOneOrder(v.parents);
    if k in KeysOf(PC(v.parents)) {
      PairValue(g, st, v, WithKey(PC(v.parents), k));
    } else {
      UnitySetOk(g, st, v);
    }
  }

  lemma InsertKeepsRegistered(g: Graph, st: State, v: Vertex)
    requires Grounded(g) && StateOk(g, st) && Joins(g, v) && PreferredRegistered(g, st)
    ensures PreferredRegistered(With(g, v), InsertState(g, st, v))
  {
    hide Grounded, StateOk, Reg, With;
    GrownGraph(g, v);
    forall k | k in InsertState(g, st, v)
      ensures InsertState(g, st, v)[k].preferred in Reg(With(g, v))
    {
      if k in st {
        ParentListOneOrder(v.parents);
      }
    }
  }

  lemma AwardedPreferred(d: Dag, h: VertexHash, preferred: bool, k: ConflictSetKey)
    requires k in d.state
    ensures k in Awarded(d, h, preferred) && Awarded(d, h, preferred)[k].preferred == d.state[k].preferred
    ensures Awarded(d, h, preferred).Keys == d.state.Keys
  {
  }

  lemma RecordKeepsRegistered(d: Dag, h: VertexHash, preferred: bool, order: seq<VertexHash>)
    requires WellFormed(d) && h in d.pending && Legal(d, Vote(h, preferred, order)) &&
        PreferredRegistered(d.graph, d.state)
    ensures PreferredRegistered(d.graph, RecordVote(d, h, preferred, order).state)
  {
    hide WellFormed, Legal, Grounded, StateOk, Ballot, Awarded, RecordVote, VoteAll, Reg;
    RecordIsVoteAll(d, h, preferred, order);
    BallotAllRegistered(d, h, preferred, order);
    AwardedFacts(d, h, preferred);
    forall k | k in Awarded(d, h, preferred)
      ensures Awarded(d, h, preferred)[k].preferred in Reg(d.graph)
    {
      AwardedPreferred(d, h, preferred, k);
    }
    VotesKeepRegistered(d.cfg, d.graph, Awarded(d, h, preferred), Ballot(d, h, preferred, order), preferred);
  }

  lemma {:induction false} PreferredInRuns(cfg: Config, v0: Vertex, evs: seq<Event>)
    requires cfg.Valid() && IsGenesis(cfg, v0) && IsRun(cfg, v0, evs)
    ensures PreferredRegistered(Run(cfg, v0, evs).graph, Run(cfg, v0, evs).state)
    decreases |evs|
  {
    hide WellFormed, Legal, Next, Run, IsRun, Apply, RecordVote, Passes, Joins, Insert, Grounded, With;
    if evs == [] {
      RunOfNothing(cfg, v0);
      GenesisGraph(cfg, v0);
    } else {
      RunStep(cfg, v0, evs);
      PreferredInRuns(cfg, v0, evs[..|evs| - 1]);
      var d, e := Run(cfg, v0, evs[..|evs| - 1]), evs[|evs| - 1];
      GraphOf(d);
      NextIsApply(d, e);
      match e
      case Submit(v) =>
        SubmitCases(d, v);
        if Passes(d, v) {
          InsertParts(d, v);
          InsertKeepsRegistered(d.graph, d.state, v);
        }
      case Vote(h, preferred, order) =>
        VoteCases(d, h, preferred, order);
        if h in d.pending { RecordKeepsRegistered(d, h, preferred, order); }
    }
  }

  // ----- without conflicts everything is preferred -----

  lemma OnlyOnePreferred(g: Graph, st: State, c: Constraint)
    requires StateOk(g, st) && NoClash(g) && PreferredRegistered(g, st) && c in Reg(g)
    ensures c.Key() in st && st[c.Key()].preferred == c
  {
    hide Reg;
    KeysOfReg(g, st);
    assert ConflictSetOk(g, c.Key(), st[c.Key()]);
    KeyIdentifiesConflictSet(c, st[c.Key()].preferred);
    assert c.IsUnity() ==> c.Flip() == c;
  }

  /** In a run without opposite orders, whatever the votes, every inserted vertex is strongly
      preferred, and that is final exactly when it is accepted. */
  lemma ConflictFreePreference(cfg: Config, v0: Vertex, evs: seq<Event>, h: VertexHash)
    requires cfg.Valid() && IsGenesis(cfg, v0) && IsRun(cfg, v0, evs)
    requires NoClash(Run(cfg, v0, evs).graph) && h in Run(cfg, v0, evs).graph
    ensures var d := Run(cfg, v0, evs); Searchable(d) && Query(d, h) == Ok((true, Accepted(d.state, Unity(h))))
  {
    hide WellFormed, Run, IsRun, Searchable, NoClash, PreferredRegistered, StateOk, SearchFor, ActiveConstraints,
         Grounded, Dec;
    var d := Run(cfg, v0, evs);
    WellFormedSearchable(d);
    GraphOf(d);
    NothingRejected(cfg, v0, evs);
    PreferredInRuns(cfg, v0, evs);
    InsertedUnityNotRejected(d, h);
    DecidedCases(d.state, Unity(h));
    if Undecided(d.state, Unity(h)) {
      UndecidedNotRoot(d, h);
      SearchForMeaning(d, h);
      forall x | x in d.graph ensures !Rejected(d.state, Unity(x)) { UnityKey(d, x); }
      SearchForUnfolds(d, h);
      SearchedRegistered(d, h);
      forall c | c in SearchFor(d, h).value
        ensures c.Key() in d.state && Stance(d.state, c).0
      {
        SearchedInGraph(d, h, c);
        OnlyOnePreferred(d.graph, d.state, c);
      }
    }
  }

  lemma InsertedUnityNotRejected(d: Dag, h: VertexHash)
    requires WellFormed(d) && h in d.graph && NoneRejected(d.graph, d.state)
    ensures !Rejected(d.state, Unity(h))
  {
    hide StateOk, KnownOk, ChildrenOk, FrontierOk, ChitsOk, Rejected;
    RegMember(d.graph, h, Unity(h));
  }

  lemma SearchedInGraph(d: Dag, h: VertexHash, c: Constraint)
    requires WellFormed(d) && h in d.graph && h != d.cfg.genesis && SearchFor(d, h).Ok? && c in SearchFor(d, h).value
    ensures c in Reg(d.graph) && Undecided(d.state, c)
  {
    hide WellFormed, SearchFor, Dec, AC, OpenAll, Active;
    GraphOf(d);
    SearchForMeaning(d, h);
    OpenConstraintsInAncestry(d.graph, d.state, h, c);
    ACRegistered(d.graph, h);
  }

  // ----- preference and support -----

  /** While neither order of a pair is decided, the preferred one has at least as much support
      as the other. */
  ghost predicate PreferredAhead(g: Graph, st: State, c: Constraint)
    requires Grounded(g)
  {
    c.Key() in st && st[c.Key()].preferred == c && !c.IsUnity() && Undecided(st, c) && Undecided(st, c.Flip()) ==>
      |Supporters(g, st, c)| >= |Supporters(g, st, c.Flip())|
  }

  /** A whole vote gives a constraint it walks the preference if it has more support than its
      opposite, and otherwise moves the preference only when it accepts the constraint. */
  lemma {:induction false} VotesPrefer(cfg: Config, g: Graph, st: State, cs: seq<Constraint>, c: Constraint)
    requires Grounded(g) && StateOk(g, st) && HaveKeys(st, cs) && OnceAtMost(cs, c) && c in cs
    ensures var st' := VoteAll(cfg, g, st, cs, true);
            && c.Key() in st && c.Key() in st'
            && (|Supporters(g, st, c)| > Opposing(g, st, c) ==> st'[c.Key()].preferred == c)
            && (|Supporters(g, st, c)| <= Opposing(g, st, c) ==>
                  st'[c.Key()].preferred == st[c.Key()].preferred || !Undecided(st', c))
  {
    hide StateOk, Accepts, SameShape, Dec, Reach;
    var rest, e := cs[..|cs| - 1], cs[|cs| - 1];
    var mid := VoteAll(cfg, g, st, rest, true);
    VoteAllStateOk(cfg, g, st, rest, true);
    if e == c {
      VoteAllElsewhere(cfg, g, st, rest, true, c.Key());
      VoteAllShape(cfg, g, st, rest, true);
      ShapeKeepsChits(g, st, mid);
      KeysOfReg(g, mid);
      VoteForFacts(cfg, g, mid, c, c);
    } else {
      VotesPrefer(cfg, g, st, rest, c);
      VoteDecGrows(cfg, g, mid, e, true);
    }
  }

  /** A whole vote records as confidence of a constraint it walks the support it finds, and leaves
      that of any other; and it gives the preference to what it accepts. */
  lemma {:induction false} VotesMeasure(cfg: Config, g: Graph, st: State, cs: seq<Constraint>, c: Constraint)
    requires Grounded(g) && StateOk(g, st) && HaveKeys(st, cs) && OnceAtMost(cs, c) && cfg.Valid()
    requires c.Key() in st && c in st[c.Key()].confidence
    ensures var st' := VoteAll(cfg, g, st, cs, true);
            && c.Key() in st' && c in st'[c.Key()].confidence
            && st'[c.Key()].confidence[c] == (if c in cs then |Supporters(g, st, c)| else st[c.Key()].confidence[c])
            && (Accepted(st', c) && !Accepted(st, c) ==> st'[c.Key()].preferred == c)
  {
    hide StateOk, Accepts, SameShape, Dec, Reach;
    if cs != [] {
      var rest, e := cs[..|cs| - 1], cs[|cs| - 1];
      var mid := VoteAll(cfg, g, st, rest, true);
      assert cs == rest + [e];
      VotesMeasure(cfg, g, st, rest, c);
      VoteAllStateOk(cfg, g, st, rest, true);
      KeysOfReg(g, mid);
      VoteForFacts(cfg, g, mid, e, c);
      VoteAllShape(cfg, g, st, rest, true);
      ShapeKeepsChits(g, st, mid);
      if Accepted(mid, c) && !Accepted(st, c) { VoteAllAccepts(cfg, g, st, rest, c); }
    }
  }

  lemma ConfidenceEntries(d: Dag, h: VertexHash, c: Constraint)
    requires WellFormed(d) && h in d.pending && c in Reg(d.graph)
    ensures c.Key() in d.state && c in d.state[c.Key()].confidence && c.Key() in Awarded(d, h, true)
    ensures Awarded(d, h, true)[c.Key()].confidence == d.state[c.Key()].confidence
  {
    hide Reg, GraphOk, KnownOk, ChildrenOk, FrontierOk, ChitsOk, StateOk;
    EntryOf(d.graph, d.state, c);
  }

  /** So in every run a positive vote makes the confidence recorded for what it walks the support
      after the vote, and touches no other. */
  lemma ConfidenceRecorded(cfg: Config, v0: Vertex, evs: seq<Event>, h: VertexHash, order: seq<VertexHash>,
                           c: Constraint)
    requires cfg.Valid() && IsGenesis(cfg, v0) && IsRun(cfg, v0, evs)
    requires h in Run(cfg, v0, evs).pending && Legal(Run(cfg, v0, evs), Vote(h, true, order))
    requires c in Reg(Run(cfg, v0, evs).graph)
    ensures var d := Run(cfg, v0, evs); var st := Apply(d, Vote(h, true, order)).state;
            && Grounded(d.graph) && c.Key() in st && c in st[c.Key()].confidence
            && c.Key() in d.state && c in d.state[c.Key()].confidence
            && st[c.Key()].confidence[c] ==
               if c in Ballot(d, h, true, order) then |Supporters(d.graph, st, c)|
               else d.state[c.Key()].confidence[c]
  {
    hide WellFormed, Legal, Run, IsRun, Apply, RecordVote, Ballot, Awarded, VoteAll, StateOk, HaveKeys, OnceAtMost,
         Supporters, Distinct, SameShape;
    var d := Run(cfg, v0, evs);
    GraphOf(d);
    VoteCases(d, h, true, order);
    BallotOnce(cfg, v0, evs, h, true, order, c);
    RecordIsVoteAll(d, h, true, order);
    AwardedFacts(d, h, true);
    ConfidenceEntries(d, h, c);
    VotesMeasure(cfg, d.graph, Awarded(d, h, true), Ballot(d, h, true, order), c);
    VoteAllShape(cfg, d.graph, Awarded(d, h, true), Ballot(d, h, true, order), true);
    ShapeKeepsChits(d.graph, Awarded(d, h, true), RecordVote(d, h, true, order).state);
  }

  lemma NewlyAcceptedPreferred(cfg: Config, v0: Vertex, evs: seq<Event>, e: Event, c: Constraint)
    requires cfg.Valid() && IsGenesis(cfg, v0) && IsRun(cfg, v0, evs) && Legal(Run(cfg, v0, evs), e)
    requires Accepted(Apply(Run(cfg, v0, evs), e).state, c) && !Accepted(Run(cfg, v0, evs).state, c)
    ensures c.Key() in Apply(Run(cfg, v0, evs), e).state
    ensures Apply(Run(cfg, v0, evs), e).state[c.Key()].preferred == c
  {
    hide WellFormed, Legal, Run, IsRun, Apply, RecordVote, Ballot, Awarded, VoteAll, StateOk, HaveKeys, OnceAtMost,
         Supporters, Distinct, Dec;
    var d := Run(cfg, v0, evs);
    match e
    case Submit(v) => SubmitAcceptsNothing(d, v, c);
    case Vote(h, preferred, order) =>
      GraphOf(d);
      VoteCases(d, h, preferred, order);
      AcceptedWalked(d, h, preferred, order, c);
      BallotOnce(cfg, v0, evs, h, true, order, c);
      RecordIsVoteAll(d, h, true, order);
      AwardedFacts(d, h, true);
      AwardedDec(d, h, true);
      BallotBacked(d, h, true, order, c);
      ConfidenceEntries(d, h, c);
      VotesMeasure(cfg, d.graph, Awarded(d, h, true), Ballot(d, h, true, order), c);
  }

  lemma UnityPreferred(cfg: Config, v0: Vertex, evs: seq<Event>, c: Constraint)
    requires cfg.Valid() && IsGenesis(cfg, v0) && IsRun(cfg, v0, evs) && c.IsUnity()
    requires c.Key() in Run(cfg, v0, evs).state
    ensures Run(cfg, v0, evs).state[c.Key()].preferred == c
  {
    hide Run, IsRun, Reg;
    var d := Run(cfg, v0, evs);
    assert ConflictSetOk(d.graph, c.Key(), d.state[c.Key()]);
    KeyIdentifiesConflictSet(c, d.state[c.Key()].preferred);
  }

  /** In every run what is accepted is the preferred constraint of its conflict set. */
  lemma {:induction false} AcceptedIsPreferred(cfg: Config, v0: Vertex, evs: seq<Event>, c: Constraint)
    requires cfg.Valid() && IsGenesis(cfg, v0) && IsRun(cfg, v0, evs) && Accepted(Run(cfg, v0, evs).state, c)
    ensures c.Key() in Run(cfg, v0, evs).state && Run(cfg, v0, evs).state[c.Key()].preferred == c
    decreases |evs|
  {
    hide WellFormed, Legal, Next, First, Run, IsRun, Apply, NoOpenConflicts, CountsSupported, AcceptancesBacked;
    if c.IsUnity() {
      UnityPreferred(cfg, v0, evs, c);
    } else if evs == [] {
      RunOfNothing(cfg, v0);
      FirstState(cfg, v0, c);
    } else {
      var before, e := evs[..|evs| - 1], evs[|evs| - 1];
      RunStep(cfg, v0, evs);
      NextIsApply(Run(cfg, v0, before), e);
      if Accepted(Run(cfg, v0, before).state, c) {
        AcceptedIsPreferred(cfg, v0, before, c);
        EveryRunSafe(cfg, v0, before);
        DecidedPairFrozen(Run(cfg, v0, before), e, c);
      } else {
        NewlyAcceptedPreferred(cfg, v0, before, e, c);
      }
    }
  }

  /** Both ways round. */
  ghost predicate Aligned(g: Graph, st: State, c: Constraint)
    requires Grounded(g)
  {
    PreferredAhead(g, st, c) && PreferredAhead(g, st, c.Flip())
  }

  /** The vote lets the opposite of the preferred `c` pull ahead: they are level and the voted
      vertex backs the opposite only, which the vote does not walk; and neither gets decided. */
  ghost predicate Overtakes(d: Dag, h: VertexHash, order: seq<VertexHash>, c: Constraint)
    requires Grounded(d.graph) && h in d.pending
  {
    var cs := Ballot(d, h, true, order);
    && !c.IsUnity() && c.Key() in d.state && d.state[c.Key()].preferred == c
    && Undecided(d.state, c) && !Struck(d.cfg, d.graph, d.state, cs, c)
    && Undecided(d.state, c.Flip()) && !Struck(d.cfg, d.graph, d.state, cs, c.Flip())
    && |Supporters(d.graph, d.state, c)| == |Supporters(d.graph, d.state, c.Flip())|
    && Backs(d.graph, h, c.Flip()) && c.Flip() !in cs && !Backs(d.graph, h, c)
  }

  /** What is known of a pair after a positive vote, in terms of the list walked. */
  lemma PairAfter(d: Dag, h: VertexHash, order: seq<VertexHash>, c: Constraint)
    requires WellFormed(d) && h in d.pending && Legal(d, Vote(h, true, order)) && !c.IsUnity()
    requires OnceAtMost(Ballot(d, h, true, order), c) && NoOpenConflicts(d.cfg.genesis, d.graph, d.state)
    ensures var cs, st' := Ballot(d, h, true, order), RecordVote(d, h, true, order).state;
            && Grounded(d.graph) && st'.Keys == d.state.Keys
            && h !in Supporters(d.graph, d.state, c)
            && Supporters(d.graph, st', c) == Supporters(d.graph, d.state, c) +
              (if Backs(d.graph, h, c) then {h} else {})
            && (c in cs ==>
                  && Backs(d.graph, h, c) && c.Key() in d.state
                  && (|Supporters(d.graph, st', c)| > |Supporters(d.graph, st', c.Flip())| ==>
                    st'[c.Key()].preferred == c)
                  && (|Supporters(d.graph, st', c)| <= |Supporters(d.graph, st', c.Flip())| ==>
                        st'[c.Key()].preferred == d.state[c.Key()].preferred || !Undecided(st', c)))
            && (c !in cs ==>
                  Undecided(st', c) == (Undecided(d.state, c) && !Struck(d.cfg, d.graph, d.state, cs, c)))
            && (Undecided(st', c) ==> Undecided(d.state, c))
  {
    hide WellFormed, Legal, Grounded, StateOk, Ballot, Awarded, RecordVote, VoteAll, OnceAtMost, HaveKeys, Supporters,
         Dec, SameShape, Backs, Distinct, Struck, NoOpenConflicts;
    GraphOf(d);
    var cs, st, st' := Ballot(d, h, true, order), Awarded(d, h, true), RecordVote(d, h, true, order).state;
    RecordIsVoteAll(d, h, true, order);
    RecordDecGrows(d, h, true, order);
    AwardedFacts(d, h, true);
    VoteAllStateOk(d.cfg, d.graph, st, cs, true);
    RecordSupport(d, h, true, order, c);
    if c in cs {
      VoteAllShape(d.cfg, d.graph, st, cs, true);
      ShapeKeepsChits(d.graph, st, st');
      BallotBacked(d, h, true, order, c);
      AwardedPreferred(d, h, true, c.Key());
      VotesPrefer(d.cfg, d.graph, st, cs, c);
    } else {
      DecisionAfter(d, h, order, c);
    }
  }

  lemma PairUnwalked(d: Dag, h: VertexHash, order: seq<VertexHash>, c: Constraint)
    requires WellFormed(d) && h in d.pending && Legal(d, Vote(h, true, order)) && c.Key() in d.state
    requires c !in Ballot(d, h, true, order) && c.Flip() !in Ballot(d, h, true, order)
    ensures c.Key() in RecordVote(d, h, true, order).state
    ensures RecordVote(d, h, true, order).state[c.Key()].preferred == d.state[c.Key()].preferred
  {
    hide WellFormed, Legal, Grounded, StateOk, Ballot, Awarded, RecordVote, VoteAll, HaveKeys, Distinct;
    RecordIsVoteAll(d, h, true, order);
    AwardedPreferred(d, h, true, c.Key());
    forall e | e in Ballot(d, h, true, order) ensures e.Key() != c.Key() { KeyIdentifiesConflictSet(e, c); }
    VoteAllElsewhere(d.cfg, d.graph, Awarded(d, h, true), Ballot(d, h, true, order), true, c.Key());
  }

  lemma AheadUnlessOvertaken(d: Dag, h: VertexHash, order: seq<VertexHash>, c: Constraint)
    requires WellFormed(d) && h in d.pending && Legal(d, Vote(h, true, order))
    requires OnceAtMost(Ballot(d, h, true, order), c) && OnceAtMost(Ballot(d, h, true, order), c.Flip())
    requires NoOpenConflicts(d.cfg.genesis, d.graph, d.state)
    requires Grounded(d.graph) && PreferredAhead(d.graph, d.state, c)
    ensures PreferredAhead(d.graph, RecordVote(d, h, true, order).state, c) <==> !Overtakes(d, h, order, c)
  {
    hide WellFormed, Legal, Grounded, Ballot, RecordVote, OnceAtMost, Supporters, Dec, Backs, Struck, NoOpenConflicts;
    if !c.IsUnity() {
      var cs, g := Ballot(d, h, true, order), d.graph;
      assert c.Flip().Flip() == c && c.Key() == c.Flip().Key();
      PairAfter(d, h, order, c);
      PairAfter(d, h, order, c.Flip());
      if c !in cs && c.Flip() !in cs && c.Key() in d.state { PairUnwalked(d, h, order, c); }
    }
  }

  lemma {:induction false} NegativeKeepsPreferred(cfg: Config, g: Graph, st: State, cs: seq<Constraint>,
                                                  k: ConflictSetKey)
    requires Grounded(g) && k in st
    ensures k in VoteAll(cfg, g, st, cs, false) && VoteAll(cfg, g, st, cs, false)[k].preferred == st[k].preferred
  {
    if cs != [] {
      NegativeKeepsPreferred(cfg, g, st, cs[..|cs| - 1], k);
    }
  }

  lemma NegativeKeepsAhead(d: Dag, h: VertexHash, order: seq<VertexHash>, c: Constraint)
    requires WellFormed(d) && h in d.pending && Legal(d, Vote(h, false, order)) && Grounded(d.graph) &&
        PreferredAhead(d.graph, d.state, c)
    ensures PreferredAhead(d.graph, RecordVote(d, h, false, order).state, c)
  {
    hide WellFormed, Legal, Grounded, StateOk, Ballot, RecordVote, VoteAll, HaveKeys, Supporters, Dec, Distinct;
    RecordIsVoteAll(d, h, false, order);
    VoteAllAgainst(d.cfg, d.graph, d.state, Ballot(d, h, false, order));
    VoteAllStateOk(d.cfg, d.graph, d.state, Ballot(d, h, false, order), false);
    RecordSupport(d, h, false, order, c);
    RecordSupport(d, h, false, order, c.Flip());
    if c.Key() in d.state { NegativeKeepsPreferred(d.cfg, d.graph, d.state, Ballot(d, h, false, order), c.Key()); }
  }

  lemma InsertKeepsAhead(d: Dag, v: Vertex, c: Constraint)
    requires WellFormed(d) && Joins(d.graph, v) && Grounded(d.graph) && PreferredAhead(d.graph, d.state, c)
    ensures Grounded(With(d.graph, v)) && PreferredAhead(With(d.graph, v), InsertState(d.graph, d.state, v), c)
  {
    hide WellFormed, Grounded, StateOk, InsertState, Joins, With, Supporters, Dec, Reg;
    GraphOf(d);
    InsertSupport(d, v, c);
    InsertSupport(d, v, c.Flip());
    assert c.Key() == c.Flip().Key();
    if c.Key() in d.state {
      InsertKeeps(d.graph, d.state, v, c);
      InsertKeeps(d.graph, d.state, v, c.Flip());
    } else {
      KeysOfReg(d.graph, d.state);
      NoSupportYet(d, c);
      NoSupportYet(d, c.Flip());
    }
  }

  // ----- every run -----

  ghost predicate Overtaking(d: Dag, e: Event, c: Constraint)
    requires Grounded(d.graph)
  {
    match e
    case Submit(_) => false
    case Vote(h, preferred, order) =>
      h in d.pending && preferred && (Overtakes(d, h, order, c) || Overtakes(d, h, order, c.Flip()))
  }

  lemma AlignedUnlessOvertaken(cfg: Config, v0: Vertex, evs: seq<Event>, e: Event, c: Constraint)
    requires cfg.Valid() && IsGenesis(cfg, v0) && IsRun(cfg, v0, evs) && Legal(Run(cfg, v0, evs), e)
    requires Grounded(Run(cfg, v0, evs).graph) && Aligned(Run(cfg, v0, evs).graph, Run(cfg, v0, evs).state, c)
    ensures var d, d' := Run(cfg, v0, evs), Apply(Run(cfg, v0, evs), e);
            Grounded(d'.graph) && (Aligned(d'.graph, d'.state, c) <==> !Overtaking(d, e, c))
  {
    hide WellFormed, Legal, Run, IsRun, PreferredAhead, Apply, RecordVote, Passes, Joins, Insert, Grounded, With,
         OnceAtMost, Overtakes, NoOpenConflicts, OppositesRejected, CountsSupported, AcceptancesBacked;
    var d := Run(cfg, v0, evs);
    assert c.Flip().Flip() == c;
    match e
    case Submit(v) =>
      SubmitCases(d, v);
      if Passes(d, v) {
        InsertParts(d, v);
        InsertKeepsAhead(d, v, c);
        InsertKeepsAhead(d, v, c.Flip());
      }
    case Vote(h, preferred, order) =>
      VoteCases(d, h, preferred, order);
      if h in d.pending && preferred {
        EveryRunSafe(cfg, v0, evs);
        BallotOnce(cfg, v0, evs, h, true, order, c);
        BallotOnce(cfg, v0, evs, h, true, order, c.Flip());
        AheadUnlessOvertaken(d, h, order, c);
        AheadUnlessOvertaken(d, h, order, c.Flip());
      } else if h in d.pending {
        NegativeKeepsAhead(d, h, order, c);
        NegativeKeepsAhead(d, h, order, c.Flip());
      }
  }

  /** At every moment of the run, if the pair of `c` is undecided, the preferred order has at
      least as much support as the other. */
  ghost predicate AlwaysAligned(cfg: Config, v0: Vertex, evs: seq<Event>, c: Constraint)
    requires cfg.Valid() && IsGenesis(cfg, v0) && IsRun(cfg, v0, evs)
  {
    && Grounded(Run(cfg, v0, evs).graph) && Aligned(Run(cfg, v0, evs).graph, Run(cfg, v0, evs).state, c)
    && (evs == [] || AlwaysAligned(cfg, v0, evs[..|evs| - 1], c))
  }

  ghost predicate NeverOvertaken(cfg: Config, v0: Vertex, evs: seq<Event>, c: Constraint)
    requires cfg.Valid() && IsGenesis(cfg, v0) && IsRun(cfg, v0, evs)
  {
    evs == [] ||
    var before := evs[..|evs| - 1];
    && NeverOvertaken(cfg, v0, before, c)
    && Grounded(Run(cfg, v0, before).graph) && !Overtaking(Run(cfg, v0, before), evs[|evs| - 1], c)
  }

  /** In every run, preference follows support all along exactly when no vote lets the opposite of
      the preferred order pull ahead without walking it. */
  lemma {:induction false} PreferenceFollowsSupport(cfg: Config, v0: Vertex, evs: seq<Event>, c: Constraint)
    requires cfg.Valid() && IsGenesis(cfg, v0) && IsRun(cfg, v0, evs)
    ensures AlwaysAligned(cfg, v0, evs, c) <==> NeverOvertaken(cfg, v0, evs, c)
    decreases |evs|
  {
    hide WellFormed, Legal, Next, First, Run, IsRun, PreferredAhead, Aligned, Apply, Grounded, Overtaking;
    if evs == [] {
      RunOfNothing(cfg, v0);
      FirstAligned(cfg, v0, c);
    } else {
      var before, e := evs[..|evs| - 1], evs[|evs| - 1];
      RunStep(cfg, v0, evs);
      PreferenceFollowsSupport(cfg, v0, before, c);
      NextIsApply(Run(cfg, v0, before), e);
      GraphOf(Run(cfg, v0, before));
      if AlwaysAligned(cfg, v0, before, c) { AlignedUnlessOvertaken(cfg, v0, before, e, c); }
    }
  }

  lemma FirstAligned(cfg: Config, v0: Vertex, c: Constraint)
    requires cfg.Valid() && IsGenesis(cfg, v0)
    ensures Grounded(First(cfg, v0).graph) && Aligned(First(cfg, v0).graph, First(cfg, v0).state, c)
  {
    hide WellFormed;
    GroundedFirst(cfg, v0);
    forall e { FirstState(cfg, v0, e); }
    GroundedFirst(cfg, v0);
    forall e { FirstState(cfg, v0, e); }
  }

  lemma ClosedNotOvertaken(d: Dag, e: Event, c: Constraint)
    requires WellFormed(d) && Legal(d, e) && AcceptanceClosed(d.graph, d.state)
    ensures Grounded(d.graph) && !Overtaking(d, e, c)
  {
    hide WellFormed, Legal, Grounded, Ballot, AcceptanceClosed, Supporters, Dec, Backs, Struck;
    GraphOf(d);
    assert c.Flip().Flip() == c;
    if e.Vote? && e.h in d.pending && e.preferred {
      if Overtakes(d, e.h, e.order, c) { BallotComplete(d, e.h, e.order, c.Flip()); }
      if Overtakes(d, e.h, e.order, c.Flip()) { BallotComplete(d, e.h, e.order, c); }
    }
  }

  /** In particular it does in every guarded run. */
  lemma {:induction false} GuardedPreference(cfg: Config, v0: Vertex, evs: seq<Event>, c: Constraint)
    requires cfg.Valid() && IsGenesis(cfg, v0) && IsRun(cfg, v0, evs) && GuardedRun(cfg, v0, evs)
    ensures NeverOvertaken(cfg, v0, evs, c)
    decreases |evs|
  {
    hide WellFormed, Legal, Next, First, Run, IsRun, Guarded, KeepsDecisions, SearchFor, Overtaking, Grounded;
    if evs != [] {
      var before := evs[..|evs| - 1];
      RunStep(cfg, v0, evs);
      GuardedPreference(cfg, v0, before, c);
      GuardedRunFinality(cfg, v0, before, |before|);
      assert before[..|before|] == before;
      ClosedNotOvertaken(Run(cfg, v0, before), evs[|evs| - 1], c);
    }
  }
}

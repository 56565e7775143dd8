/**
 Finality.  A decision is final in every run exactly as long as each acceptance finds all its
 constraint parents accepted: the guard the code puts on early acceptance, but not on
 acceptance by the full threshold.
 */
module Finality {
  import opened Wrappers
  import opened Vertices
  import opened Ancestry
  import opened DagTypes
  import opened Search
  import opened Voting
  import opened Insertion
  import opened Dags
  import opened Steps
  import opened Runs
  import opened Ballots
  import opened BallotOrder
  import opened Safety

  // ----- consistent decisions -----

  /** Rejection passes on to all constraint children. */
  ghost predicate RejectionClosed(g: Graph, st: State) {
    forall c, d :: Rejected(st, c) && d in Kids(g, c) ==> Rejected(st, d)
  }

  /** Only registered constraints are accepted. */
  ghost predicate AcceptedRegistered(g: Graph, st: State) {
    forall c :: Accepted(st, c) ==> c in Reg(g)
  }

  /** A vertex is rejected only because of a constraint it commits to. */
  ghost predicate RejectionCaused(g: Graph, st: State) {
    forall c :: c in Reg(g) && c.IsUnity() && Rejected(st, c) ==> HasRejectedParent(g, st, c)
  }

  ghost predicate Consistent(g: Graph, st: State) {
    && AcceptanceClosed(g, st) && RejectionClosed(g, st) && OppositesRejected(st)
    && AcceptedRegistered(g, st) && RejectionCaused(g, st)
  }

  ghost predicate KeepsDecisions(st: State, st': State) {
    forall c :: !Undecided(st, c) ==> Dec(st', c) == Dec(st, c)
  }

  lemma SameDecConsistent(g: Graph, st: State, st': State)
    requires Consistent(g, st) && forall c :: Dec(st', c) == Dec(st, c)
    ensures Consistent(g, st') && KeepsDecisions(st, st')
  {
    hide Dec, Reg, Kids, ConstraintParents;
    forall c ensures Accepted(st', c) == Accepted(st, c) && Rejected(st', c) == Rejected(st, c) {}
    forall c | c in Reg(g) && c.IsUnity() && Rejected(st', c)
      ensures HasRejectedParent(g, st', c)
    {
      var p :| p in ConstraintParents(g, c) && Rejected(st, p);
      assert Rejected(st', p);
    }
  }

  lemma KeepsTrans(st: State, st': State, st'': State)
    requires KeepsDecisions(st, st') && KeepsDecisions(st', st'')
    ensures KeepsDecisions(st, st'')
  {
    hide Dec;
  }

  /** Everything above an accepted constraint is accepted. */
  lemma AcceptedAbove(g: Graph, st: State, c: Constraint, e: Constraint)
    requires Grounded(g) && AcceptanceClosed(g, st) && Accepted(st, e) && Below(g, c, e)
    ensures Accepted(st, c)
  {
    hide AC, Dec;
    var x := if e.left in g && c in AC(g, e.left) then e.left else e.right;
    assert ParentsAccepted(g, st, e);
    ACViaParent(g, x, c);
    if c !in PC(g[x].parents) {
      var p :| p in g[x].parents && p in g && c in AC(g, p);
      assert Unity(p) in PC(g[x].parents);
      AcceptedAncestry(g, st, p, c);
    }
  }

  /** Everything below a rejected constraint is rejected. */
  lemma {:induction false} RejectedBelow(g: Graph, st: State, c: Constraint, e: Constraint)
    requires Grounded(g) && RejectionClosed(g, st) && Rejected(st, c) && e in Reach(g, c)
    ensures Rejected(st, e)
    decreases Reach(g, c)
  {
    hide Kids, Dec, AC, Grounded;
    if e != c {
      var d := ReachViaKid(g, c, e);
      ReachOfKid(g, c, d);
      RejectedBelow(g, st, d, e);
    }
  }

  /** A vertex below a constraint has a constraint parent equal to it or below it. */
  lemma ReachedParent(g: Graph, c: Constraint, e: Constraint) returns (p: Constraint)
    requires Grounded(g) && e.IsUnity() && Below(g, c, e)
    ensures p in ConstraintParents(g, e) && p in Reach(g, c)
  {
    var x := e.left;
    ACViaParent(g, x, c);
    if c in PC(g[x].parents) {
      p := c;
    } else {
      var q :| q in g[x].parents && q in g && c in AC(g, q);
      p := Unity(q);
      if q in g {
        RegMember(g, q, Unity(q));
      }
    }
  }

  // ----- accepting one more constraint -----

  /** `st'` is `st` with `c` accepted and its opposite's progeny rejected. */
  ghost predicate Accepting(g: Graph, st: State, st': State, c: Constraint)
    requires Grounded(g)
  {
    forall d :: Dec(st', d) ==
      if d == c then Some(true) else if !c.IsUnity() && d in Reach(g, c.Flip()) then Some(false) else Dec(st, d)
  }

  /** The newly rejected constraints were not accepted. */
  lemma NoneAcceptedRejected(g: Graph, st: State, c: Constraint, e: Constraint)
    requires Grounded(g) && Consistent(g, st) && Undecided(st, c) && !c.IsUnity() && e in Reach(g, c.Flip())
    ensures !Accepted(st, e)
  {
    hide AC, Dec, AcceptanceClosed, RejectionClosed, RejectionCaused, AcceptedRegistered, Grounded;
    DecidedCases(st, c);
    if Accepted(st, e) && e != c.Flip() { AcceptedAbove(g, st, c.Flip(), e); }
    if Accepted(st, c.Flip()) {
      assert Rejected(st, c.Flip().Flip());
      assert c.Flip().Flip() == c;
    }
  }

  lemma AcceptingKeeps(g: Graph, st: State, st': State, c: Constraint)
    requires Grounded(g) && Consistent(g, st) && Undecided(st, c) && Accepting(g, st, st', c)
    ensures KeepsDecisions(st, st')
    ensures forall d :: Accepted(st', d) <==> d == c || Accepted(st, d)
  {
    hide Dec, Reach, Consistent, Grounded;
    forall d
      ensures !Undecided(st, d) ==> Dec(st', d) == Dec(st, d)
      ensures Accepted(st', d) <==> d == c || Accepted(st, d)
    {
      DecidedCases(st, d);
      if !c.IsUnity() && d in Reach(g, c.Flip()) {
        FlipReach(g, c, d);
        NoneAcceptedRejected(g, st, c, d);
      }
    }
  }

  lemma AcceptingRejected(g: Graph, st: State, st': State, c: Constraint)
    requires Grounded(g) && Consistent(g, st) && Undecided(st, c) && Accepting(g, st, st', c)
    requires ParentsAccepted(g, st, c)
    ensures RejectionClosed(g, st')
  {
    hide Dec, Reg, ConstraintParents, RejectionCaused, AcceptanceClosed, AcceptedRegistered, OppositesRejected;
    DecidedCases(st, c);
    forall e, d | Rejected(st', e) && d in Kids(g, e)
      ensures Rejected(st', d)
    {
      if !c.IsUnity() && e in Reach(g, c.Flip()) {
        KidIsBelow(g, e, d);
        if e != c.Flip() { BelowTrans(g, c.Flip(), e, d); }
        FlipReach(g, c, d);
      } else {
        assert Rejected(st, e);
        assert Rejected(st, d);
      }
    }
  }

  lemma AcceptingCaused(g: Graph, st: State, st': State, c: Constraint)
    requires Grounded(g) && Consistent(g, st) && Undecided(st, c) && Accepting(g, st, st', c)
    ensures RejectionCaused(g, st')
  {
    hide Dec, Reg, ConstraintParents, RejectionClosed, AcceptanceClosed, AcceptedRegistered, OppositesRejected,
         Grounded, KeepsDecisions;
    AcceptingKeeps(g, st, st', c);
    forall e | e in Reg(g) && e.IsUnity() && Rejected(st', e)
      ensures HasRejectedParent(g, st', e)
    {
      DecidedCases(st', e);
      if !c.IsUnity() && e in Reach(g, c.Flip()) && e != c.Flip() {
        var p := ReachedParent(g, c.Flip(), e);
        FlipReach(g, c, p);
        assert Rejected(st', p);
      } else {
      }
    }
  }

  /** Accepting an undecided constraint whose parents are accepted keeps everything consistent
      and overwrites nothing. */
  lemma AcceptingConsistent(g: Graph, st: State, st': State, c: Constraint)
    requires Grounded(g) && Consistent(g, st) && Undecided(st, c) && Accepting(g, st, st', c)
    requires c in Reg(g) && ParentsAccepted(g, st, c)
    ensures Consistent(g, st') && KeepsDecisions(st, st')
  {
    hide Dec, Reg, RejectionClosed, RejectionCaused, KeepsDecisions;
    AcceptingKeeps(g, st, st', c);
    AcceptingKeeps(g, st, st', c);
    AcceptingRejected(g, st, st', c);
    AcceptingCaused(g, st, st', c);
  }

  // ----- one constraint of a ballot -----

  /** If the vote accepts `c`, its constraint parents are accepted. */
  ghost predicate GuardedAt(cfg: Config, g: Graph, st: State, c: Constraint)
    requires Grounded(g)
  {
    Accepts(cfg, g, Tally(g, st, c), c) ==> ParentsAccepted(g, st, c)
  }

  ghost predicate OneOrderEach(cs: seq<Constraint>) {
    forall c :: c in cs && !c.IsUnity() ==> c.Flip() !in cs
  }

  ghost predicate RestUndecided(st: State, h: VertexHash, cs: seq<Constraint>, i: nat)
    requires i <= |cs|
  {
    forall c :: c in cs[i..] && c != Unity(h) ==> Undecided(st, c)
  }

  /** What holds after the first `i` constraints of a ballot have been voted on. */
  ghost predicate Steady(g: Graph, st: State, h: VertexHash, cs: seq<Constraint>, i: nat)
    requires Grounded(g) && i <= |cs|
  {
    && Consistent(g, st) && Orderly(g, st, h, cs) && OneOrderEach(cs) && RestUndecided(st, h, cs, i)
  }

  /** Rejecting the opposite of an accepted constraint leaves the rest of the ballot alone. */
  lemma RestUntouched(g: Graph, st: State, h: VertexHash, cs: seq<Constraint>, c: Constraint, e: Constraint)
    requires Grounded(g) && h in g && Consistent(g, st) && Orderly(g, st, h, cs) && OneOrderEach(cs)
    requires c in cs && !c.IsUnity() && Undecided(st, c)
    requires e in cs && e != Unity(h) && Undecided(st, e)
    ensures e !in Reach(g, c.Flip())
  {
    hide AC, Dec, Reg, AcceptanceClosed, RejectionCaused, AcceptedRegistered, Anc;
    if e in Reach(g, c.Flip()) {
      assert e != c.Flip();
      var x := if e.left in g && c.Flip() in AC(g, e.left) then e.left else e.right;
      ACEndpoints(g, h, e);
      ACMonotone(g, x, h);
      ACRegistered(g, h);
      DecidedCases(st, c);
      DecidedCases(st, e);
      DecidedCases(st, c.Flip());
      assert c.Flip().Flip() == c;
      if Rejected(st, c.Flip()) { RejectedBelow(g, st, c.Flip(), e); }
    }
  }

  /** A vote which changes no decision. */
  lemma SteadyQuiet(g: Graph, st: State, st': State, h: VertexHash, cs: seq<Constraint>, i: nat)
    requires Grounded(g) && i < |cs| && Steady(g, st, h, cs, i) && forall d :: Dec(st', d) == Dec(st, d)
    ensures Steady(g, st', h, cs, i + 1) && KeepsDecisions(st, st')
  {
    hide Dec, Consistent, Orderly, OneOrderEach, KeepsDecisions;
    SameDecConsistent(g, st, st');
    OrderlyKept(g, st, st', h, cs);
    forall c | c in cs[i + 1..] && c != Unity(h)
      ensures Undecided(st', c)
    {
      assert cs[i..] == [cs[i]] + cs[i + 1..];
      assert c in cs[i..];
    }
  }

  lemma SteadyAccepting(g: Graph, st: State, st': State, h: VertexHash, cs: seq<Constraint>, i: nat)
    requires Grounded(g) && h in g && i < |cs| && Steady(g, st, h, cs, i)
    requires Undecided(st, cs[i]) && ParentsAccepted(g, st, cs[i]) && Accepting(g, st, st', cs[i])
    ensures Steady(g, st', h, cs, i + 1) && KeepsDecisions(st, st')
  {
    hide Dec, Consistent, OneOrderEach, KeepsDecisions, ParentsAccepted, Reach, Backs, Reg, Grounded,
         ConstraintParents;
    var c := cs[i];
    AcceptingConsistent(g, st, st', c);
    OrderlyKept(g, st, st', h, cs);
    assert cs[i..] == [c] + cs[i + 1..];
    assert cs[..i + 1] == cs[..i] + [c];
    DistinctSplit(cs, i + 1, c);
    forall e | e in cs[i + 1..] && e != Unity(h)
      ensures Undecided(st', e)
    {
      assert e in cs && e in cs[i..] && Undecided(st, e) && e != c;
      if !c.IsUnity() { RestUntouched(g, st, h, cs, c, e); }
    }
  }

  lemma OrderlyKept(g: Graph, st: State, st': State, h: VertexHash, cs: seq<Constraint>)
    requires Grounded(g) && Orderly(g, st, h, cs) && KeepsDecisions(st, st')
    ensures Orderly(g, st', h, cs)
  {
    hide Dec, Reg, Backs, ConstraintParents;
    forall c | Undecided(st', c) ensures Undecided(st, c) {}
  }

  /** One guarded vote keeps the ballot steady and overwrites no decision. */
  lemma SteadyStep(cfg: Config, g: Graph, st: State, h: VertexHash, cs: seq<Constraint>, i: nat)
    requires Grounded(g) && StateOk(g, st) && h in g && i < |cs| && Steady(g, st, h, cs, i)
    requires GuardedAt(cfg, g, st, cs[i])
    ensures Steady(g, VoteFor(cfg, g, st, cs[i]), h, cs, i + 1)
    ensures KeepsDecisions(st, VoteFor(cfg, g, st, cs[i]))
  {
    hide Dec, Reg, Backs, AcceptanceClosed, RejectionClosed, OppositesRejected, AcceptedRegistered;
    hide KeepsDecisions, OneOrderEach, Reach, StateOk, Grounded, VoteFor, Accepts, Tally, ConstraintParents;
    var c, st' := cs[i], VoteFor(cfg, g, st, cs[i]);
    KeysOfReg(g, st);
    assert c in cs && c in cs[i..];
    forall d { VoteForFacts(cfg, g, st, c, d); }
    if !Accepts(cfg, g, Tally(g, st, c), c) {
      SteadyQuiet(g, st, st', h, cs, i);
    } else if Undecided(st, c) {
      SteadyAccepting(g, st, st', h, cs, i);
    } else {
      forall p | p in ConstraintParents(g, c) ensures !Rejected(st, p) { DecidedCases(st, p); }
      DecidedCases(st, c);
      SteadyQuiet(g, st, st', h, cs, i);
    }
  }

  // ----- one vote -----

  /** Every acceptance in this vote finds its constraint parents accepted. */
  ghost predicate GuardedVote(d: Dag, h: VertexHash, cs: seq<Constraint>)
    requires Grounded(d.graph)
  {
    forall i :: 0 <= i < |cs| ==> GuardedAt(d.cfg, d.graph, Mid(d, h, true, cs, i), cs[i])
  }

  /** No decision is overwritten between any two moments of this vote, and it ends consistent. */
  ghost predicate FinalVote(d: Dag, h: VertexHash, cs: seq<Constraint>)
    requires Grounded(d.graph)
  {
    && Consistent(d.graph, Mid(d, h, true, cs, |cs|))
    && forall i, j :: 0 <= i <= j <= |cs| ==> KeepsDecisions(Mid(d, h, true, cs, i), Mid(d, h, true, cs, j))
  }

  lemma SteadyFirst(d: Dag, h: VertexHash, order: seq<VertexHash>)
    requires WellFormed(d) && h in d.pending && Legal(d, Vote(h, true, order))
    requires Consistent(d.graph, d.state) && NoOpenConflicts(d.cfg.genesis, d.graph, d.state)
    ensures Grounded(d.graph) && Steady(d.graph, Mid(d, h, true, Ballot(d, h, true, order), 0), h,
        Ballot(d, h, true, order), 0)
  {
    hide WellFormed, Legal, Ballot, Dec, Orderly, NoOpenConflicts, AcceptanceClosed, RejectionClosed,
         AcceptedRegistered, RejectionCaused, OppositesRejected;
    var cs := Ballot(d, h, true, order);
    GraphOf(d);
    AwardedDec(d, h, true);
    SameDecConsistent(d.graph, d.state, Awarded(d, h, true));
    BallotOrderly(d, h, order);
    assert cs[0..] == cs;
    forall c | c in cs
      ensures !c.IsUnity() ==> c.Flip() !in cs
      ensures c != Unity(h) ==> Undecided(Awarded(d, h, true), c)
    {
      if !c.IsUnity() { BallotConflictFree(d, h, true, order, c); }
      BallotBacked(d, h, true, order, c);
    }
  }

  lemma SteadyNext(d: Dag, h: VertexHash, order: seq<VertexHash>, i: nat)
    requires WellFormed(d) && h in d.pending && Grounded(d.graph)
    requires i < |Ballot(d, h, true, order)|
    requires Steady(d.graph, Mid(d, h, true, Ballot(d, h, true, order), i), h, Ballot(d, h, true, order), i)
    requires GuardedAt(d.cfg, d.graph, Mid(d, h, true, Ballot(d, h, true, order), i), Ballot(d, h, true, order)[i])
    ensures Steady(d.graph, Mid(d, h, true, Ballot(d, h, true, order), i + 1), h, Ballot(d, h, true, order), i + 1)
    ensures KeepsDecisions(Mid(d, h, true, Ballot(d, h, true, order), i),
        Mid(d, h, true, Ballot(d, h, true, order), i + 1))
  {
    hide WellFormed, Ballot, Steady, GuardedAt, KeepsDecisions, Mid, StateOk, Grounded, Supporters;
    var cs := Ballot(d, h, true, order);
    PendingVertex(d, h);
    MidStateOk(d, h, true, cs, i);
    MidNext(d, h, true, cs, i);
    SteadyStep(d.cfg, d.graph, Mid(d, h, true, cs, i), h, cs, i);
  }

  lemma {:induction false} GuardedMid(d: Dag, h: VertexHash, order: seq<VertexHash>, i: nat, j: nat)
    requires WellFormed(d) && h in d.pending && Legal(d, Vote(h, true, order)) && Grounded(d.graph)
    requires Consistent(d.graph, d.state) && NoOpenConflicts(d.cfg.genesis, d.graph, d.state)
    requires GuardedVote(d, h, Ballot(d, h, true, order)) && i <= j <= |Ballot(d, h, true, order)|
    ensures Steady(d.graph, Mid(d, h, true, Ballot(d, h, true, order), j), h, Ballot(d, h, true, order), j)
    ensures KeepsDecisions(Mid(d, h, true, Ballot(d, h, true, order), i), Mid(d, h, true, Ballot(d, h, true, order), j))
    decreases j
  {
    hide WellFormed, Ballot, Legal, Steady, GuardedAt, KeepsDecisions, Mid, Grounded, Consistent, NoOpenConflicts;
    var cs := Ballot(d, h, true, order);
    if j == 0 {
      SteadyFirst(d, h, order);
      KeepsRefl(Mid(d, h, true, cs, j));
    } else {
      GuardedMid(d, h, order, if i == j then j - 1 else i, j - 1);
      SteadyNext(d, h, order, j - 1);
      if i == j {
        KeepsRefl(Mid(d, h, true, cs, j));
      } else {
        KeepsTrans(Mid(d, h, true, cs, i), Mid(d, h, true, cs, j - 1), Mid(d, h, true, cs, j));
      }
    }
  }

  lemma KeepsRefl(st: State)
    ensures KeepsDecisions(st, st)
  {
  }

  /** What is accepted at the end was accepted before, or was still to be voted on. */
  lemma {:induction false} AcceptedFromRest(d: Dag, h: VertexHash, cs: seq<Constraint>, i: nat, j: nat, p: Constraint)
    requires WellFormed(d) && h in d.pending && Grounded(d.graph) && HaveKeys(d.state, cs)
    requires i <= j <= |cs| && Accepted(Mid(d, h, true, cs, j), p)
    ensures Accepted(Mid(d, h, true, cs, i), p) || p in cs[i..]
    decreases j
  {
    hide WellFormed, Mid, Grounded, StateOk, Dec, Supporters, Reach, Accepts;
    if i < j {
      MidStateOk(d, h, true, cs, j - 1);
      MidNext(d, h, true, cs, j - 1);
      KeysOfReg(d.graph, Mid(d, h, true, cs, j - 1));
      VoteForFacts(d.cfg, d.graph, Mid(d, h, true, cs, j - 1), cs[j - 1], p);
      assert cs[i..][j - 1 - i] == cs[j - 1];
      DecidedCases(Mid(d, h, true, cs, j), p);
      if p != cs[j - 1] { AcceptedFromRest(d, h, cs, i, j - 1, p); }
    }
  }

  /** An unguarded acceptance leaves a constraint parent unaccepted for good. */
  lemma UnguardedBreaks(d: Dag, h: VertexHash, order: seq<VertexHash>, i: nat)
    requires WellFormed(d) && h in d.pending && Legal(d, Vote(h, true, order)) && Grounded(d.graph)
    requires i < |Ballot(d, h, true, order)| && FinalVote(d, h, Ballot(d, h, true, order))
    requires Steady(d.graph, Mid(d, h, true, Ballot(d, h, true, order), i), h, Ballot(d, h, true, order), i)
    ensures GuardedAt(d.cfg, d.graph, Mid(d, h, true, Ballot(d, h, true, order), i), Ballot(d, h, true, order)[i])
  {
    hide WellFormed, Ballot, Legal, Mid, Grounded, Consistent, Steady, Accepts, Dec;
    var cs := Ballot(d, h, true, order);
    var c, st, end := cs[i], Mid(d, h, true, cs, i), Mid(d, h, true, cs, |cs|);
    if Accepts(d.cfg, d.graph, Tally(d.graph, st, c), c) {
      AcceptedAtEnd(d, h, order, i);
      forall p | p in ConstraintParents(d.graph, c)
        ensures Accepted(st, p)
      {
        ParentAtEnd(d, h, order, i, p);
      }
    }
  }

  lemma AcceptedAtEnd(d: Dag, h: VertexHash, order: seq<VertexHash>, i: nat)
    requires WellFormed(d) && h in d.pending && Legal(d, Vote(h, true, order)) && Grounded(d.graph)
    requires i < |Ballot(d, h, true, order)| && FinalVote(d, h, Ballot(d, h, true, order))
    requires var st, c := Mid(d, h, true, Ballot(d, h, true, order), i), Ballot(d, h, true, order)[i];
             Accepts(d.cfg, d.graph, Tally(d.graph, st, c), c)
    ensures ParentsAccepted(d.graph, Mid(d, h, true, Ballot(d, h, true, order), |Ballot(d, h, true, order)|),
        Ballot(d, h, true, order)[i])
  {
    hide WellFormed, Ballot, Legal, Mid, Grounded, Accepts, ParentsAccepted, Dec, StateOk, Supporters, Reg,
         RejectionClosed, RejectionCaused, OppositesRejected;
    var cs := Ballot(d, h, true, order);
    var c, st, end := cs[i], Mid(d, h, true, cs, i), Mid(d, h, true, cs, |cs|);
    MidStateOk(d, h, true, cs, i);
    MidNext(d, h, true, cs, i);
    KeysOfReg(d.graph, st);
    BallotBacked(d, h, true, order, c);
    VoteForFacts(d.cfg, d.graph, st, c, c);
    assert Accepted(Mid(d, h, true, cs, i + 1), c);
    assert KeepsDecisions(Mid(d, h, true, cs, i + 1), end);
    DecidedCases(Mid(d, h, true, cs, i + 1), c);
    assert Accepted(end, c);
  }

  lemma ParentAtEnd(d: Dag, h: VertexHash, order: seq<VertexHash>, i: nat, p: Constraint)
    requires WellFormed(d) && h in d.pending && Legal(d, Vote(h, true, order)) && Grounded(d.graph)
    requires i < |Ballot(d, h, true, order)| && FinalVote(d, h, Ballot(d, h, true, order))
    requires Steady(d.graph, Mid(d, h, true, Ballot(d, h, true, order), i), h, Ballot(d, h, true, order), i)
    requires ParentsAccepted(d.graph, Mid(d, h, true, Ballot(d, h, true, order), |Ballot(d, h, true, order)|),
        Ballot(d, h, true, order)[i])
    requires p in ConstraintParents(d.graph, Ballot(d, h, true, order)[i])
    ensures Accepted(Mid(d, h, true, Ballot(d, h, true, order), i), p)
  {
    hide WellFormed, Legal, Mid, Grounded, Dec, Consistent, ConstraintParents, Reg, Backs, OneOrderEach,
         RestUndecided, HaveKeys;
    var cs := Ballot(d, h, true, order);
    var st, end := Mid(d, h, true, cs, i), Mid(d, h, true, cs, |cs|);
    PendingVertex(d, h);
    assert cs[i] in cs;
    ParentBacked(d.graph, h, cs[i], p);
    ConstraintParentsRegistered(d.graph, cs[i]);
    VoteListRegistered(d, h, Awarded(d, h, true), order);
    assert KeepsDecisions(st, end);
    AcceptedFromRest(d, h, cs, i, |cs|, p);
    DecidedCases(st, p);
    DecidedCases(end, p);
    if Undecided(st, p) { DistinctSplit(cs, i, p); }
  }

  lemma {:induction false} FinalMid(d: Dag, h: VertexHash, order: seq<VertexHash>, i: nat)
    requires WellFormed(d) && h in d.pending && Legal(d, Vote(h, true, order)) && Grounded(d.graph)
    requires Consistent(d.graph, d.state) && NoOpenConflicts(d.cfg.genesis, d.graph, d.state)
    requires FinalVote(d, h, Ballot(d, h, true, order)) && i <= |Ballot(d, h, true, order)|
    ensures Steady(d.graph, Mid(d, h, true, Ballot(d, h, true, order), i), h, Ballot(d, h, true, order), i)
  {
    hide WellFormed, Ballot, Legal, Steady, GuardedAt, FinalVote, Mid, Grounded, Consistent, NoOpenConflicts;
    if i == 0 {
      SteadyFirst(d, h, order);
    } else {
      FinalMid(d, h, order, i - 1);
      UnguardedBreaks(d, h, order, i - 1);
      SteadyNext(d, h, order, i - 1);
    }
  }

  /** A positive vote on a consistent state overwrites no decision and ends consistent if and
      only if every constraint it accepts has its constraint parents accepted by then. */
  lemma VoteFinalIffGuarded(d: Dag, h: VertexHash, order: seq<VertexHash>)
    requires WellFormed(d) && h in d.pending && Legal(d, Vote(h, true, order))
    requires Consistent(d.graph, d.state) && NoOpenConflicts(d.cfg.genesis, d.graph, d.state)
    ensures Grounded(d.graph)
    ensures GuardedVote(d, h, Ballot(d, h, true, order)) <==> FinalVote(d, h, Ballot(d, h, true, order))
  {
    hide WellFormed, Ballot, Legal, GuardedAt, KeepsDecisions, Mid, Grounded, Consistent, NoOpenConflicts, Orderly,
         OneOrderEach, RestUndecided;
    GraphOf(d);
    var cs := Ballot(d, h, true, order);
    if GuardedVote(d, h, cs) {
      GuardedMid(d, h, order, 0, |cs|);
      forall i, j | 0 <= i <= j <= |cs|
        ensures KeepsDecisions(Mid(d, h, true, cs, i), Mid(d, h, true, cs, j))
      {
        GuardedMid(d, h, order, i, j);
      }
    }
    if FinalVote(d, h, cs) {
      forall i | 0 <= i < |cs|
        ensures GuardedAt(d.cfg, d.graph, Mid(d, h, true, cs, i), cs[i])
      {
        FinalMid(d, h, order, i);
        UnguardedBreaks(d, h, order, i);
      }
    }
  }

  // ----- inserting -----

  /** A vertex which passes the checks commits to nothing with a rejected constraint parent. */
  lemma NoRejectedEnds(d: Dag, v: Vertex, e: Constraint, c: Constraint)
    requires WellFormed(d) && Passes(d, v) && RejectionClosed(d.graph, d.state)
    requires c in PC(v.parents) && e in ConstraintParents(d.graph, c)
    ensures !Rejected(d.state, e)
  {
    hide WellFormed, Dec, AC, Anc;
    var a := CommittingEnd(d.graph, c, e);
    GraphOf(d);
    RegMember(d.graph, a, Unity(a));
    assert Unity(a) in Kids(d.graph, e);
    OpenInOpenAll(d.graph, DecidedIn(d.graph, d.state), v.parents, a);
    assert a in OpenAll(d.graph, DecidedIn(d.graph, d.state), v.parents);
  }

  lemma InsertKeepsDecisions(d: Dag, v: Vertex)
    requires WellFormed(d) && Joins(d.graph, v)
    ensures KeepsDecisions(d.state, InsertState(d.graph, d.state, v))
  {
    hide WellFormed, InsertState, Joins;
    forall c | !Undecided(d.state, c)
      ensures Dec(InsertState(d.graph, d.state, v), c) == Dec(d.state, c)
    {
      InsertKeeps(d.graph, d.state, v, c);
    }
  }

  lemma InsertClosed(d: Dag, v: Vertex)
    requires WellFormed(d) && Joins(d.graph, v) && Consistent(d.graph, d.state)
    ensures AcceptanceClosed(With(d.graph, v), InsertState(d.graph, d.state, v))
    ensures AcceptedRegistered(With(d.graph, v), InsertState(d.graph, d.state, v))
  {
    hide WellFormed, InsertState, Joins, With, Dec, Grounded, StateOk, ConstraintParents, ParentsAccepted,
         OppositesRejected, RejectionClosed, RejectionCaused;
    GraphOf(d);
    GrownGraph(d.graph, v);
    forall c | Accepted(InsertState(d.graph, d.state, v), c)
      ensures c in Reg(d.graph) && ParentsAccepted(With(d.graph, v), InsertState(d.graph, d.state, v), c)
    {
      InsertAcceptsNothing(d.graph, d.state, v, c);
      ParentsStayAccepted(d, v, c);
    }
  }

  lemma OldKidRejected(d: Dag, v: Vertex, e: Constraint, c: Constraint)
    requires WellFormed(d) && Joins(d.graph, v) && RejectionClosed(d.graph, d.state)
    requires Rejected(InsertState(d.graph, d.state, v), e) && c in Kids(d.graph, e)
    ensures Rejected(InsertState(d.graph, d.state, v), c)
  {
    hide WellFormed, InsertState, Joins, Dec, StateOk, ConstraintParents;
    GraphOf(d);
    KeysOfReg(d.graph, d.state);
    ConstraintParentsRegistered(d.graph, c);
    InsertKeeps(d.graph, d.state, v, e);
    assert Rejected(d.state, e);
    assert Rejected(d.state, c);
    InsertKeeps(d.graph, d.state, v, c);
  }

  lemma NewPairParents(d: Dag, v: Vertex, e: Constraint, c: Constraint)
    requires WellFormed(d) && Passes(d, v) && Joins(d.graph, v) && RejectionClosed(d.graph, d.state)
    requires c in PC(v.parents) && e in ConstraintParents(With(d.graph, v), c)
    ensures !Rejected(InsertState(d.graph, d.state, v), e)
  {
    hide WellFormed, InsertState, Joins, With, Dec, Grounded, StateOk, Passes, RejectionClosed, ConstraintParents;
    GraphOf(d);
    KeysOfReg(d.graph, d.state);
    OldConstraints(d.graph, v, c);
    InsertKeeps(d.graph, d.state, v, e);
    NoRejectedEnds(d, v, e, c);
  }

  lemma KidRejected(d: Dag, v: Vertex, e: Constraint, c: Constraint)
    requires WellFormed(d) && Passes(d, v) && Joins(d.graph, v) && RejectionClosed(d.graph, d.state)
    requires Rejected(InsertState(d.graph, d.state, v), e) && c in Kids(With(d.graph, v), e)
    ensures Rejected(InsertState(d.graph, d.state, v), c)
  {
    hide WellFormed, InsertState, Dec, Grounded, StateOk, Passes, RejectionClosed, Kids;
    GraphOf(d);
    KidAfter(d.graph, v, e, c);
    if c in Kids(d.graph, e) {
      OldKidRejected(d, v, e, c);
    } else if c in PC(v.parents) {
      NewPairParents(d, v, e, c);
    } else {
      InsertUnity(d.graph, d.state, v);
    }
  }

  lemma InsertCaused(d: Dag, v: Vertex, c: Constraint)
    requires WellFormed(d) && Joins(d.graph, v) && Consistent(d.graph, d.state)
    requires c in Reg(With(d.graph, v)) && c.IsUnity() && Rejected(InsertState(d.graph, d.state, v), c)
    ensures HasRejectedParent(With(d.graph, v), InsertState(d.graph, d.state, v), c)
  {
    hide InsertState, Dec, Grounded, StateOk, OppositesRejected, AcceptanceClosed, AcceptedRegistered, RejectionClosed;
    GraphOf(d);
    GrownGraph(d.graph, v);
    KeysOfReg(d.graph, d.state);
    InsertUnity(d.graph, d.state, v);
    if c != Unity(v.hash) {
      if c in PC(v.parents) {
        RegMember(d.graph, c.left, c);
      }
      InsertKeeps(d.graph, d.state, v, c);
      var p :| p in ConstraintParents(d.graph, c) && Rejected(d.state, p);
      ConstraintParentsRegistered(d.graph, c);
      OldConstraints(d.graph, v, c);
      InsertKeeps(d.graph, d.state, v, p);
      assert p in ConstraintParents(With(d.graph, v), c);
    }
  }

  lemma ConsistentInsert(d: Dag, v: Vertex)
    requires WellFormed(d) && Passes(d, v) && Joins(d.graph, v) && Consistent(d.graph, d.state)
    ensures Consistent(With(d.graph, v), InsertState(d.graph, d.state, v))
    ensures KeepsDecisions(d.state, InsertState(d.graph, d.state, v))
  {
    hide WellFormed, InsertState, Joins, With, Dec, Grounded, Passes, OppositesRejected, AcceptanceClosed,
         AcceptedRegistered, HasRejectedParent, Kids, Reg;
    InsertKeepsDecisions(d, v);
    InsertClosed(d, v);
    InsertOpposites(d, v);
    forall e, c | Rejected(InsertState(d.graph, d.state, v), e) && c in Kids(With(d.graph, v), e)
      ensures Rejected(InsertState(d.graph, d.state, v), c)
    {
      KidRejected(d, v, e, c);
    }
    forall c | c in Reg(With(d.graph, v)) && c.IsUnity() && Rejected(InsertState(d.graph, d.state, v), c)
      ensures HasRejectedParent(With(d.graph, v), InsertState(d.graph, d.state, v), c)
    {
      InsertCaused(d, v, c);
    }
  }

  // ----- events and runs -----

  ghost predicate Guarded(d: Dag, e: Event)
    requires WellFormed(d)
  {
    e.Vote? && e.preferred && e.h in d.pending ==> GuardedVote(d, e.h, Ballot(d, e.h, true, e.order))
  }

  /** The event overwrites no decision, and leaves acceptance closed under constraint parents,
      rejection under constraint children. */
  ghost predicate Final(d: Dag, e: Event)
    requires WellFormed(d) && Legal(d, e)
  {
    && KeepsDecisions(d.state, Next(d, e).state)
    && Consistent(Next(d, e).graph, Next(d, e).state)
    && (e.Vote? && e.preferred && e.h in d.pending ==> FinalVote(d, e.h, Ballot(d, e.h, true, e.order)))
  }

  lemma SubmitFinal(d: Dag, v: Vertex)
    requires WellFormed(d) && Legal(d, Submit(v)) && Consistent(d.graph, d.state)
    ensures Final(d, Submit(v))
  {
    hide WellFormed, Legal, Apply, Passes, Consistent, KeepsDecisions, With, InsertState, Joins, Grounded;
    GraphOf(d);
    SubmitCases(d, v);
    KeepsRefl(d.state);
    if Passes(d, v) { ConsistentInsert(d, v); }
  }

  lemma NegativeFinal(d: Dag, h: VertexHash, order: seq<VertexHash>)
    requires WellFormed(d) && h in d.pending && Legal(d, Vote(h, false, order)) && Consistent(d.graph, d.state)
    ensures KeepsDecisions(d.state, RecordVote(d, h, false, order).state)
    ensures Consistent(d.graph, RecordVote(d, h, false, order).state)
  {
    hide WellFormed, Legal, RecordVote, VoteAll, Consistent, Ballot, Awarded, StateOk, Grounded, Dec, Count;
    RecordIsVoteAll(d, h, false, order);
    AwardedDec(d, h, false);
    VoteAllAgainst(d.cfg, d.graph, Awarded(d, h, false), Ballot(d, h, false, order));
    SameDecConsistent(d.graph, d.state, RecordVote(d, h, false, order).state);
  }

  lemma PositiveFinal(d: Dag, h: VertexHash, order: seq<VertexHash>)
    requires WellFormed(d) && h in d.pending && Legal(d, Vote(h, true, order)) && Consistent(d.graph, d.state)
    requires FinalVote(d, h, Ballot(d, h, true, order))
    ensures KeepsDecisions(d.state, RecordVote(d, h, true, order).state)
    ensures Consistent(d.graph, RecordVote(d, h, true, order).state)
  {
    hide WellFormed, Legal, RecordVote, Consistent, Ballot, Dec, KeepsDecisions;
    var cs := Ballot(d, h, true, order);
    GraphOf(d);
    MidLast(d, h, true, order);
    AwardedDec(d, h, true);
    SameDecConsistent(d.graph, d.state, Awarded(d, h, true));
    assert KeepsDecisions(Mid(d, h, true, cs, 0), Mid(d, h, true, cs, |cs|));
    KeepsTrans(d.state, Awarded(d, h, true), RecordVote(d, h, true, order).state);
  }

  lemma EventFinalIffGuarded(d: Dag, e: Event)
    requires WellFormed(d) && Legal(d, e) && Consistent(d.graph, d.state)
    requires Grounded(d.graph) && NoOpenConflicts(d.cfg.genesis, d.graph, d.state)
    ensures Guarded(d, e) <==> Final(d, e)
  {
    hide WellFormed, Legal, Apply, RecordVote, Consistent, KeepsDecisions, Grounded, Ballot, FinalVote, GuardedVote,
         NoOpenConflicts;
    match e
    case Submit(v) => SubmitFinal(d, v);
    case Vote(h, preferred, order) =>
      VoteCases(d, h, preferred, order);
      KeepsRefl(d.state);
      if h in d.pending {
        if preferred {
          VoteFinalIffGuarded(d, h, order);
          if FinalVote(d, h, Ballot(d, h, true, order)) { PositiveFinal(d, h, order); }
        } else {
          NegativeFinal(d, h, order);
        }
      }
  }

  ghost predicate GuardedRun(cfg: Config, v0: Vertex, evs: seq<Event>)
    requires cfg.Valid() && IsGenesis(cfg, v0) && IsRun(cfg, v0, evs)
  {
    evs == [] || (GuardedRun(cfg, v0, evs[..|evs| - 1]) && Guarded(Run(cfg, v0, evs[..|evs| - 1]), evs[|evs| - 1]))
  }

  ghost predicate FinalRun(cfg: Config, v0: Vertex, evs: seq<Event>)
    requires cfg.Valid() && IsGenesis(cfg, v0) && IsRun(cfg, v0, evs)
  {
    evs == [] || (FinalRun(cfg, v0, evs[..|evs| - 1]) && Final(Run(cfg, v0, evs[..|evs| - 1]), evs[|evs| - 1]))
  }

  lemma FirstConsistent(cfg: Config, v0: Vertex)
    requires cfg.Valid() && IsGenesis(cfg, v0)
    ensures Consistent(First(cfg, v0).graph, First(cfg, v0).state)
  {
    hide WellFormed, Dec, GenesisState, GraphOk;
    var d := First(cfg, v0);
    GenesisGraph(cfg, v0);
    forall c { FirstState(cfg, v0, c); }
    assert ConstraintParents(d.graph, Unity(v0.hash)) == {};
  }

  lemma {:induction false} FinalRunConsistent(cfg: Config, v0: Vertex, evs: seq<Event>)
    requires cfg.Valid() && IsGenesis(cfg, v0) && IsRun(cfg, v0, evs) && FinalRun(cfg, v0, evs)
    ensures Consistent(Run(cfg, v0, evs).graph, Run(cfg, v0, evs).state)
  {
    hide WellFormed, Legal, First, Next, Consistent, IsRun, KeepsDecisions, FinalVote;
    if evs == [] {
      FirstConsistent(cfg, v0);
    } else {
      RunStep(cfg, v0, evs);
    }
  }

  /** Over whole runs: every event overwrites no decision and keeps the decisions closed, if and
      only if every constraint accepted along the run had all its constraint parents accepted
      at that moment. */
  lemma {:induction false} RunFinalIffGuarded(cfg: Config, v0: Vertex, evs: seq<Event>)
    requires cfg.Valid() && IsGenesis(cfg, v0) && IsRun(cfg, v0, evs)
    ensures GuardedRun(cfg, v0, evs) <==> FinalRun(cfg, v0, evs)
    decreases |evs|
  {
    hide WellFormed, Legal, First, Next, Run, Consistent, Guarded, Final, OppositesRejected, CountsSupported,
         AcceptancesBacked, NoOpenConflicts;
    if evs != [] {
      var before := evs[..|evs| - 1];
      RunStep(cfg, v0, evs);
      RunFinalIffGuarded(cfg, v0, before);
      if FinalRun(cfg, v0, before) {
        FinalRunConsistent(cfg, v0, before);
        EveryRunSafe(cfg, v0, before);
        GraphOf(Run(cfg, v0, before));
        EventFinalIffGuarded(Run(cfg, v0, before), evs[|evs| - 1]);
      }
    }
  }

  /** In a guarded run, what is decided at any moment is decided the same way ever after;
      acceptance is closed under constraint parents and rejection under constraint children;
      and the search for an inserted vertex fails only if that vertex is itself rejected. */
  lemma {:induction false} GuardedRunFinality(cfg: Config, v0: Vertex, evs: seq<Event>, n: nat)
    requires cfg.Valid() && IsGenesis(cfg, v0) && IsRun(cfg, v0, evs) && GuardedRun(cfg, v0, evs) && n <= |evs|
    ensures IsRun(cfg, v0, evs[..n])
    ensures KeepsDecisions(Run(cfg, v0, evs[..n]).state, Run(cfg, v0, evs).state)
    ensures Consistent(Run(cfg, v0, evs).graph, Run(cfg, v0, evs).state)
    ensures var d := Run(cfg, v0, evs);
            forall h :: h in d.graph && h != cfg.genesis && !Rejected(d.state, Unity(h)) ==> SearchFor(d, h).Ok?
    decreases |evs|
  {
    hide WellFormed, Legal, Next, Run, Consistent, Guarded, Extends, DecGrows, KeepsDecisions, SearchFor, Dec;
    RunGrows(cfg, v0, evs, n);
    RunFinalIffGuarded(cfg, v0, evs);
    FinalRunConsistent(cfg, v0, evs);
    if n == |evs| {
      assert evs[..n] == evs;
      KeepsRefl(Run(cfg, v0, evs).state);
    } else {
      var before := evs[..|evs| - 1];
      RunStep(cfg, v0, evs);
      assert before[..n] == evs[..n];
      GuardedRunFinality(cfg, v0, before, n);
      KeepsTrans(Run(cfg, v0, evs[..n]).state, Run(cfg, v0, before).state, Run(cfg, v0, evs).state);
    }
    forall h | h in Run(cfg, v0, evs).graph && h != cfg.genesis && !Rejected(Run(cfg, v0, evs).state, Unity(h))
      ensures SearchFor(Run(cfg, v0, evs), h).Ok?
    {
      SearchIfNotRejected(Run(cfg, v0, evs), h);
    }
  }

  lemma SearchIfNotRejected(d: Dag, h: VertexHash)
    requires WellFormed(d) && h in d.graph && h != d.cfg.genesis && Consistent(d.graph, d.state)
    requires !Rejected(d.state, Unity(h))
    ensures SearchFor(d, h).Ok?
  {
    hide WellFormed, SearchFor, Dec, AC, Anc, Reach, Open;
    GraphOf(d);
    SearchForMeaning(d, h);
    forall p, x | p in d.graph[h].parents && x in Open(d.graph, DecidedIn(d.graph, d.state), p)
      ensures !Rejected(d.state, Unity(x))
    {
      if Rejected(d.state, Unity(x)) {
        AncEqOfParent(d.graph, h, p);
        UnityOfAncestor(d.graph, x, h);
        UnityReached(d.graph, Unity(x), h);
        RejectedBelow(d.graph, d.state, Unity(x), Unity(h));
      }
    }
  }
}

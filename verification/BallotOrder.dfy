/**
 The order of a ballot when acceptance is closed under constraint parents: it holds every
 undecided constraint the voted vertex backs, constraint parents before children.
 */
module BallotOrder {
  import opened Vertices
  import opened Ancestry
  import opened DagTypes
  import opened Search
  import opened ActiveSets
  import opened Voting
  import opened Insertion
  import opened Dags
  import opened VoteLists
  import opened Steps
  import opened Ballots

  // ----- acceptance closed under constraint parents -----

  ghost predicate AcceptanceClosed(g: Graph, st: State) {
    forall c :: c in Reg(g) && Accepted(st, c) ==> ParentsAccepted(g, st, c)
  }

  /** Everything an accepted vertex and its ancestors commit to is accepted. */
  lemma {:induction false} AcceptedAncestry(g: Graph, st: State, x: VertexHash, c: Constraint)
    requires Grounded(g) && AcceptanceClosed(g, st) && x in g && Accepted(st, Unity(x)) && c in AC(g, x)
    ensures Accepted(st, c)
    decreases g[x].height
  {
    hide AC, Dec;
    RegMember(g, x, Unity(x));
    assert ParentsAccepted(g, st, Unity(x));
    ACViaParent(g, x, c);
    if c !in PC(g[x].parents) {
      var p :| p in g[x].parents && p in g && c in AC(g, p);
      assert ParentsBelow(g, g[x]);
      assert Unity(p) in PC(g[x].parents);
      AcceptedAncestry(g, st, p, c);
    }
  }

  ghost predicate NoneRejectedAbove(g: Graph, st: State, ps: seq<VertexHash>)
    requires Grounded(g) && AllInserted(g, ps)
  {
    forall p, x :: p in ps && x in AncEq(g, p) ==> !Rejected(st, Unity(x))
  }

  /** A search which meets no rejection has no rejected ancestor beyond its horizon either. */
  lemma {:induction false} NothingHidden(g: Graph, st: State, p: VertexHash, x: VertexHash)
    requires Grounded(g) && AcceptanceClosed(g, st) && p in g && x in AncEq(g, p)
    requires !HitsRejected(st, Open(g, DecidedIn(g, st), p))
    ensures !Rejected(st, Unity(x))
    decreases g[p].height
  {
    hide Dec, AcceptanceClosed, Anc;
    var D := DecidedIn(g, st);
    if x != p {
      if p in D {
        assert !Rejected(st, Unity(p));
        DecidedCases(st, Unity(p));
        UnityOfAncestor(g, x, p);
        AcceptedAncestry(g, st, p, Unity(x));
      } else {
        var q := AncViaParent(g, x, p);
        assert ParentsBelow(g, g[p]);
        assert Open(g, D, q) <= Open(g, D, p);
        NothingHidden(g, st, q, x);
      }
    }
  }

  lemma DecidedCases(st: State, c: Constraint)
    ensures Undecided(st, c) || Accepted(st, c) || Rejected(st, c)
    ensures !(Accepted(st, c) && Rejected(st, c))
  {
    match Dec(st, c)
    case None =>
    case Some(b) => assert b || !b;
  }

  lemma LegalNothingHidden(d: Dag, h: VertexHash, preferred: bool, order: seq<VertexHash>)
    requires WellFormed(d) && h in d.pending && Legal(d, Vote(h, preferred, order)) &&
        AcceptanceClosed(d.graph, d.state)
    ensures Grounded(d.graph) && AllInserted(d.graph, d.graph[h].parents) &&
        NoneRejectedAbove(d.graph, d.state, d.graph[h].parents)
  {
    hide WellFormed, Legal, AcceptanceClosed, Dec, Open, AncEq, DecidedIn, Grounded;
    GraphOf(d);
    PendingVertex(d, h);
    LegalSearch(d, h, preferred, order);
    var D, ps := DecidedIn(d.graph, d.state), d.graph[h].parents;
    forall p, x | p in ps && x in AncEq(d.graph, p)
      ensures !Rejected(d.state, Unity(x))
    {
      OpenInOpenAll(d.graph, D, ps, p);
      NothingHidden(d.graph, d.state, p, x);
    }
  }

  lemma DecidedIsAccepted(g: Graph, st: State, ps: seq<VertexHash>, p: VertexHash, x: VertexHash)
    requires Grounded(g) && AllInserted(g, ps) && NoneRejectedAbove(g, st, ps)
    requires p in ps && x in AncEq(g, p) && x in DecidedIn(g, st)
    ensures Accepted(st, Unity(x))
  {
    hide Dec, AncEq;
    assert !Rejected(st, Unity(x));
    DecidedCases(st, Unity(x));
  }

  lemma DecidedAncestorsClosed(g: Graph, st: State, ps: seq<VertexHash>)
    requires Grounded(g) && AcceptanceClosed(g, st) && AllInserted(g, ps) && NoneRejectedAbove(g, st, ps)
    ensures AncestorsClosed(g, DecidedIn(g, st), ps)
  {
    hide AcceptanceClosed, NoneRejectedAbove, Dec, Anc, AC;
    forall p, y, a | p in ps && y in AncEq(g, p) && y in DecidedIn(g, st) && a in Anc(g, y)
      ensures a in DecidedIn(g, st)
    {
      DecidedIsAccepted(g, st, ps, p, y);
      UnityOfAncestor(g, a, y);
      AcceptedAncestry(g, st, y, Unity(a));
    }
  }

  /** With acceptance closed, the constraints open to `h` are all undecided ones it backs. */
  lemma OpenIsUndecidedAncestry(g: Graph, st: State, h: VertexHash, c: Constraint)
    requires Grounded(g) && AcceptanceClosed(g, st) && Rooted(g, DecidedIn(g, st))
    requires h in g && AllInserted(g, g[h].parents) && NoneRejectedAbove(g, st, g[h].parents)
    requires c in AC(g, h) && Undecided(st, c)
    ensures c in OpenConstraints(g, st, g[h].parents)
  {
    hide AcceptanceClosed, NoneRejectedAbove, Dec, Anc, Rooted, Active, AncestorsClosed;
    var ps := g[h].parents;
    var x :| x in AncEq(g, h) && c in PC(g[x].parents);
    if x != h {
      var p := AncViaParent(g, x, h);
      if x in DecidedIn(g, st) {
        DecidedIsAccepted(g, st, ps, p, x);
        ACMember(g, x, x, c);
        AcceptedAncestry(g, st, x, c);
      }
      DecidedAncestorsClosed(g, st, ps);
      ActiveExact(g, DecidedIn(g, st), ps, x);
    }
  }

  // ----- the ballot in such a run -----

  /** The ballot of a vote on `h`: every undecided constraint `h` backs, constraint parents
      before children. */
  ghost predicate Orderly(g: Graph, st: State, h: VertexHash, cs: seq<Constraint>)
    requires Grounded(g)
  {
    && Distinct(cs)
    && (forall c :: c in cs ==> c in Reg(g) && Backs(g, h, c))
    && (forall c :: c in Reg(g) && Backs(g, h, c) && Undecided(st, c) ==> c in cs)
    && (forall i, p :: 0 <= i < |cs| && p in cs && p in ConstraintParents(g, cs[i]) ==> p in cs[..i])
  }

  /** Which end point of `c` commits to its constraint parent `p`. */
  lemma CommittingEnd(g: Graph, c: Constraint, p: Constraint) returns (a: VertexHash)
    requires p in ConstraintParents(g, c)
    ensures a in g && p in PC(g[a].parents) && (a == c.left || a == c.right)
  {
    a := if c.left in g && p in PC(g[c.left].parents) then c.left else c.right;
  }

  lemma UndecidedEnd(g: Graph, st: State, h: VertexHash, a: VertexHash, p: Constraint)
    requires Grounded(g) && AcceptanceClosed(g, st)
    requires h in g && AllInserted(g, g[h].parents) && NoneRejectedAbove(g, st, g[h].parents)
    requires a in Anc(g, h) && p in PC(g[a].parents) && Undecided(st, p)
    ensures a !in DecidedIn(g, st)
  {
    hide AcceptanceClosed, NoneRejectedAbove, Dec, Anc;
    if a in DecidedIn(g, st) {
      var q := AncViaParent(g, a, h);
      DecidedIsAccepted(g, st, g[h].parents, q, a);
      ACMember(g, a, a, p);
      AcceptedAncestry(g, st, a, p);
    }
  }

  lemma AncestorsPrecede(d: Dag, h: VertexHash, order: seq<VertexHash>, p: Constraint, c: Constraint, a: VertexHash)
    requires WellFormed(d) && h in d.pending && Grounded(d.graph) && AllInserted(d.graph, d.graph[h].parents)
    requires AncestorsClosed(d.graph, DecidedIn(d.graph, d.state), d.graph[h].parents)
    requires Elements(order) == Active(d.graph, DecidedIn(d.graph, d.state), d.graph[h].parents) &&
        SortedByHeight(d.graph, order)
    requires a in d.graph && a !in DecidedIn(d.graph, d.state) && p in PC(d.graph[a].parents) &&
        (a == c.left || a == c.right)
    ensures Precedes(Commitments(d.graph, order), p, c)
    ensures c in PC(d.graph[h].parents) ==> p in Commitments(d.graph, order)
  {
    hide WellFormed, Active, Commitments, AncestorsClosed, DecidedIn;
    PendingVertex(d, h);
    GraphOf(d);
    RootedGraph(d);
    var g, D, ps := d.graph, DecidedIn(d.graph, d.state), d.graph[h].parents;
    forall i | 0 <= i < |order| && order[i] in g && c in PC(g[order[i]].parents)
      ensures p in Committed(g, Elements(order[..i]))
    {
      ActiveSound(g, D, ps, order[i]);
      ActiveParent(g, D, ps, order[i], a);
      assert a in order[..i];
    }
    CommitmentsPrecede(g, order, p, c);
    if c in PC(ps) {
      assert a in AncEq(g, a);
      ActiveExact(g, D, ps, a);
      CommitmentsContent(g, order, p);
    }
  }

  lemma ActiveParent(g: Graph, D: set<VertexHash>, ps: seq<VertexHash>, x: VertexHash, a: VertexHash)
    requires Grounded(g) && AllInserted(g, ps) && Rooted(g, D) && AncestorsClosed(g, D, ps)
    requires x in Active(g, D, ps) && x in g && a in g[x].parents && a !in D
    ensures a in g && a in Active(g, D, ps) && g[a].height < g[x].height
  {
    assert ParentsBelow(g, g[x]);
    ActiveSound(g, D, ps, x);
    var p :| p in ps && x in AncEq(g, p);
    AncEqOfParent(g, x, a);
    if x != p { AncTrans(g, a, x, p); }
    ActiveExact(g, D, ps, a);
  }

  /** In the ballot, a constraint parent comes before its child. */
  lemma BallotPrecedes(d: Dag, h: VertexHash, order: seq<VertexHash>, i: nat, p: Constraint)
    requires WellFormed(d) && h in d.pending && Legal(d, Vote(h, true, order))
    requires AcceptanceClosed(d.graph, d.state)
    requires i < |Ballot(d, h, true, order)| && p in Ballot(d, h, true, order)
    requires p in ConstraintParents(d.graph, Ballot(d, h, true, order)[i])
    ensures p in Ballot(d, h, true, order)[..i]
  {
    hide AcceptanceClosed, Dec;
    var cs := Ballot(d, h, true, order);
    BallotDistinct(d, h, true, order);
    if i == |cs| - 1 {
      assert cs == cs[..i] + [cs[i]];
    } else {
      assert cs[i] != Unity(h);
      ListPrecedes(d, h, order, cs[i], p);
      BallotIsListed(d, h, order, i, p);
    }
  }

  /** The list of undecided constraints a vote walks before the unity of its vertex. */
  ghost function Listed(d: Dag, h: VertexHash, order: seq<VertexHash>): seq<Constraint>
    requires h in d.pending
  {
    OnlyUndecided(Awarded(d, h, true), Unique(Commitments(d.graph, order) + ConstraintSeq(d.pending[h].parents)))
  }

  lemma BallotIsListed(d: Dag, h: VertexHash, order: seq<VertexHash>, i: nat, p: Constraint)
    requires WellFormed(d) && h in d.pending
    requires i < |Ballot(d, h, true, order)| - 1
    requires Precedes(Listed(d, h, order), p, Ballot(d, h, true, order)[i])
    ensures p in Ballot(d, h, true, order)[..i]
  {
    hide WellFormed;
    var cs, ls := Ballot(d, h, true, order), Listed(d, h, order);
    assert cs == ls + [cs[|cs| - 1]];
    assert cs[..i] == ls[..i] && ls[i] == cs[i];
  }

  lemma ListPrecedes(d: Dag, h: VertexHash, order: seq<VertexHash>, c: Constraint, p: Constraint)
    requires WellFormed(d) && h in d.pending && Legal(d, Vote(h, true, order))
    requires AcceptanceClosed(d.graph, d.state)
    requires p in Ballot(d, h, true, order) && p in ConstraintParents(d.graph, c) && c != Unity(h)
    requires c in Ballot(d, h, true, order)
    ensures Precedes(Listed(d, h, order), p, c)
  {
    hide AcceptanceClosed, Ballot, ConstraintParents, Dec, Precedes, Commitments, Unique, OnlyUndecided, Committed,
         OpenConstraints;
    GraphOf(d);
    PendingVertex(d, h);
    LegalSearch(d, h, true, order);
    AwardedDec(d, h, true);
    var a := CommittingEnd(d.graph, c, p);
    ParentUndecided(d, h, order, c, p);
    BallotBacked(d, h, true, order, c);
    ACEndpoints(d.graph, h, c);
    LegalNothingHidden(d, h, true, order);
    UndecidedEnd(d.graph, d.state, h, a, p);
    DecidedAncestorsClosed(d.graph, d.state, d.graph[h].parents);
    AncestorsPrecede(d, h, order, p, c, a);
    ConstraintSeqElements(d.graph[h].parents);
    PrecedesAppend(Commitments(d.graph, order), ConstraintSeq(d.pending[h].parents), p, c);
    var all := Commitments(d.graph, order) + ConstraintSeq(d.pending[h].parents);
    UniquePrecedes(all, p, c);
    UniqueFacts(all);
    OnlyUndecidedPrecedes(Awarded(d, h, true), Unique(all), p, c);
  }

  /** A constraint parent on the ballot is undecided: it is not the unity of the voted vertex,
      which has no children yet on the ballot. */
  lemma ParentUndecided(d: Dag, h: VertexHash, order: seq<VertexHash>, c: Constraint, p: Constraint)
    requires WellFormed(d) && h in d.pending && Legal(d, Vote(h, true, order))
    requires c in Ballot(d, h, true, order) && p in Ballot(d, h, true, order) && p in ConstraintParents(d.graph, c)
    ensures Undecided(d.state, p)
  {
    hide WellFormed, Legal, Ballot, Dec, AC, Reach;
    GraphOf(d);
    PendingVertex(d, h);
    BallotBacked(d, h, true, order, c);
    BallotBacked(d, h, true, order, p);
    ParentBacked(d.graph, h, c, p);
    if p == Unity(h) { ACEndpoints(d.graph, h, p); }
  }

  /** Whoever backs a constraint has its constraint parents in its ancestry. */
  lemma ParentBacked(g: Graph, w: VertexHash, c: Constraint, p: Constraint)
    requires Grounded(g) && w in g && Backs(g, w, c) && p in ConstraintParents(g, c)
    ensures p in AC(g, w) && Backs(g, w, p)
  {
    hide AC, Anc;
    var a := CommittingEnd(g, c, p);
    if c != Unity(w) { ACEndpoints(g, w, c); }
    ACMember(g, a, a, p);
    ACMonotone(g, a, w);
  }

  lemma BallotComplete(d: Dag, h: VertexHash, order: seq<VertexHash>, c: Constraint)
    requires WellFormed(d) && h in d.pending && Legal(d, Vote(h, true, order))
    requires AcceptanceClosed(d.graph, d.state)
    requires Backs(d.graph, h, c) && Undecided(d.state, c)
    ensures c in Ballot(d, h, true, order)
  {
    hide WellFormed, Legal, AcceptanceClosed, Ballot, Dec, OpenConstraints, AC;
    GraphOf(d);
    RootedGraph(d);
    PendingVertex(d, h);
    LegalNothingHidden(d, h, true, order);
    BallotContent(d, h, true, order, c);
    if c != Unity(h) { OpenIsUndecidedAncestry(d.graph, d.state, h, c); }
  }

  lemma BallotOrderly(d: Dag, h: VertexHash, order: seq<VertexHash>)
    requires WellFormed(d) && h in d.pending && Legal(d, Vote(h, true, order))
    requires AcceptanceClosed(d.graph, d.state)
    ensures Grounded(d.graph) && Orderly(d.graph, Awarded(d, h, true), h, Ballot(d, h, true, order))
  {
    hide WellFormed, Legal, AcceptanceClosed, Ballot, ConstraintParents, Dec, Backs, Awarded, Grounded, Reg;
    var cs := Ballot(d, h, true, order);
    GraphOf(d);
    AwardedDec(d, h, true);
    BallotDistinct(d, h, true, order);
    forall c | c in cs ensures c in Reg(d.graph) && Backs(d.graph, h, c) { BallotBacked(d, h, true, order, c); }
    forall c | Backs(d.graph, h, c) && Undecided(d.state, c) ensures c in cs { BallotComplete(d, h, order, c); }
    forall i, p | 0 <= i < |cs| && p in cs && p in ConstraintParents(d.graph, cs[i])
      ensures p in cs[..i]
    {
      BallotPrecedes(d, h, order, i, p);
    }
  }

  lemma DistinctSplit(cs: seq<Constraint>, i: nat, p: Constraint)
    requires Distinct(cs) && i <= |cs| && p in cs[..i]
    ensures p !in cs[i..]
  {
  }

  lemma ConstraintParentsRegistered(g: Graph, c: Constraint)
    ensures ConstraintParents(g, c) <= Reg(g)
  {
    forall p | p in ConstraintParents(g, c)
      ensures p in Reg(g)
    {
      var a := CommittingEnd(g, c, p);
      RegMember(g, a, p);
    }
  }

  lemma ParentsStayAccepted(d: Dag, v: Vertex, c: Constraint)
    requires WellFormed(d) && Joins(d.graph, v) && c in Reg(d.graph) && ParentsAccepted(d.graph, d.state, c)
    ensures ParentsAccepted(With(d.graph, v), InsertState(d.graph, d.state, v), c)
  {
    hide WellFormed, StateOk, InsertState, Joins, With, Dec, ConstraintParents, Grounded;
    GraphOf(d);
    KeysOfReg(d.graph, d.state);
    OldConstraints(d.graph, v, c);
    forall p | p in ConstraintParents(d.graph, c)
      ensures Accepted(InsertState(d.graph, d.state, v), p)
    {
      InsertKeeps(d.graph, d.state, v, p);
    }
  }
}

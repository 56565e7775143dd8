/** What one legal vote walks, and the states it passes through. */
module Ballots {
  import opened Wrappers
  import opened Vertices
  import opened Ancestry
  import opened DagTypes
  import opened Search
  import opened ActiveSets
  import opened Voting
  import opened Dags
  import opened VoteLists
  import opened Steps

  /** The state once the voted vertex has its chit, before any counter moves. */
  ghost function Awarded(d: Dag, h: VertexHash, preferred: bool): State {
    if preferred then Award(d.state, Unity(h)) else d.state
  }

  ghost function Ballot(d: Dag, h: VertexHash, preferred: bool, order: seq<VertexHash>): seq<Constraint>
    requires h in d.pending
  {
    VoteList(d.graph, Awarded(d, h, preferred), d.pending[h], order)
  }

  /** The state once the first `i` constraints of the ballot have been dealt with. */
  ghost function Mid(d: Dag, h: VertexHash, preferred: bool, cs: seq<Constraint>, i: nat): State
    requires Grounded(d.graph) && i <= |cs|
  {
    VoteAll(d.cfg, d.graph, Awarded(d, h, preferred), cs[..i], preferred)
  }

  lemma MidNext(d: Dag, h: VertexHash, preferred: bool, cs: seq<Constraint>, i: nat)
    requires Grounded(d.graph) && i < |cs|
    ensures Mid(d, h, preferred, cs, i + 1) == VoteOn(d.cfg, d.graph, Mid(d, h, preferred, cs, i), cs[i], preferred)
  {
    assert cs[..i + 1][..i] == cs[..i];
  }

  lemma MidLast(d: Dag, h: VertexHash, preferred: bool, order: seq<VertexHash>)
    requires Grounded(d.graph) && h in d.pending
    ensures var cs := Ballot(d, h, preferred, order);
            RecordVote(d, h, preferred, order).state == Mid(d, h, preferred, cs, |cs|)
  {
    var cs := Ballot(d, h, preferred, order);
    assert cs[..|cs|] == cs;
  }

  lemma AwardedFacts(d: Dag, h: VertexHash, preferred: bool)
    requires WellFormed(d) && h in d.pending
    ensures StateOk(d.graph, Awarded(d, h, preferred)) && Awarded(d, h, preferred).Keys == d.state.Keys
    ensures forall c ::
              Dec(Awarded(d, h, preferred), c) == Dec(d.state, c) &&
              Count(Awarded(d, h, preferred), c) == Count(d.state, c)
    ensures forall c :: Chit(Awarded(d, h, preferred), c) <==> (preferred && c == Unity(h)) || Chit(d.state, c)
  {
    PendingVertex(d, h);
    AwardFacts(d.graph, d.state, Unity(h));
  }

  lemma MidStateOk(d: Dag, h: VertexHash, preferred: bool, cs: seq<Constraint>, i: nat)
    requires WellFormed(d) && h in d.pending && i <= |cs|
    ensures StateOk(d.graph, Mid(d, h, preferred, cs, i))
    ensures Mid(d, h, preferred, cs, i).Keys == d.state.Keys
    ensures forall c ::
              Supporters(d.graph, Mid(d, h, preferred, cs, i), c) == Supporters(d.graph, Awarded(d, h, preferred), c)
  {
    AwardedFacts(d, h, preferred);
    VoteAllStateOk(d.cfg, d.graph, Awarded(d, h, preferred), cs[..i], preferred);
    VoteAllShape(d.cfg, d.graph, Awarded(d, h, preferred), cs[..i], preferred);
    ShapeKeepsChits(d.graph, Awarded(d, h, preferred), Mid(d, h, preferred, cs, i));
  }

  lemma OneMoreChit(g: Graph, st: State, st': State, h: VertexHash, preferred: bool, c: Constraint)
    requires Grounded(g) && h in g && !Chit(st, Unity(h))
    requires forall e :: Chit(st', e) <==> (preferred && e == Unity(h)) || Chit(st, e)
    ensures h !in Supporters(g, st, c)
    ensures Supporters(g, st', c) == Supporters(g, st, c) + if preferred && Backs(g, h, c) then {h} else {}
  {
  }

  /** The recorded vertex joins the supporters of what it speaks for. */
  lemma AwardedSupport(d: Dag, h: VertexHash, preferred: bool, c: Constraint)
    requires WellFormed(d) && h in d.pending
    ensures h !in Supporters(d.graph, d.state, c)
    ensures Supporters(d.graph, Awarded(d, h, preferred), c) ==
            Supporters(d.graph, d.state, c) + if preferred && Backs(d.graph, h, c) then {h} else {}
  {
    AwardedFacts(d, h, preferred);
    PendingVertex(d, h);
    OneMoreChit(d.graph, d.state, Awarded(d, h, preferred), h, preferred, c);
  }

  lemma OpenConstraintsInAncestry(g: Graph, st: State, h: VertexHash, c: Constraint)
    requires Grounded(g) && h in g && AllInserted(g, g[h].parents)
    requires c in OpenConstraints(g, st, g[h].parents)
    ensures c in AC(g, h) && Undecided(st, c) && c != Unity(h)
  {
    var D := DecidedIn(g, st);
    if c in PC(g[h].parents) {
      ACMember(g, h, h, c);
    } else {
      var x :| x in Active(g, D, g[h].parents) && x in g && c in PC(g[x].parents);
      ActiveSound(g, D, g[h].parents, x);
      var p :| p in g[h].parents && x in AncEq(g, p);
      AncEqOfParent(g, h, p);
      ACMember(g, h, x, c);
    }
    ACEndpoints(g, h, c);
  }

  lemma LegalSearch(d: Dag, h: VertexHash, preferred: bool, order: seq<VertexHash>)
    requires WellFormed(d) && h in d.pending && Legal(d, Vote(h, preferred, order))
    ensures AllInserted(d.graph, d.graph[h].parents)
    ensures Elements(order) == Active(d.graph, DecidedIn(d.graph, d.state), d.graph[h].parents)
    ensures !HitsRejected(d.state, OpenAll(d.graph, DecidedIn(d.graph, d.state), d.graph[h].parents))
  {
    PendingVertex(d, h);
    RootedGraph(d);
    SearchOutcome(d.vertex, d.graph, d.state, d.graph[h].parents);
  }

  lemma VoteIsLegal(d: Dag, h: VertexHash, preferred: bool, order: seq<VertexHash>)
    requires WellFormed(d) && h in d.pending
    requires ActiveAncestors(d.vertex, d.graph, d.state, d.pending[h].parents) == Ok(Elements(order))
    requires Distinct(order) && SortedByHeight(d.graph, order)
    ensures Legal(d, Vote(h, preferred, order))
  {
  }

  /** The ballot of a legal vote is the undecided constraints the search returns, and the unity
      of the voted vertex. */
  lemma BallotContent(d: Dag, h: VertexHash, preferred: bool, order: seq<VertexHash>, c: Constraint)
    requires WellFormed(d) && h in d.pending && Legal(d, Vote(h, preferred, order))
    ensures AllInserted(d.graph, d.graph[h].parents)
    ensures c in Ballot(d, h, preferred, order) <==>
            c == Unity(h) || c in OpenConstraints(d.graph, d.state, d.graph[h].parents)
  {
    LegalSearch(d, h, preferred, order);
    AwardedFacts(d, h, preferred);
    VoteListMember(d, h, Awarded(d, h, preferred), order, c);
  }

  lemma BallotBacked(d: Dag, h: VertexHash, preferred: bool, order: seq<VertexHash>, c: Constraint)
    requires WellFormed(d) && h in d.pending && Legal(d, Vote(h, preferred, order))
    requires c in Ballot(d, h, preferred, order)
    ensures Backs(d.graph, h, c) && c in Reg(d.graph) && c.Key() in d.state
    ensures c != Unity(h) ==> Undecided(d.state, c)
  {
    BallotContent(d, h, preferred, order, c);
    PendingVertex(d, h);
    if c != Unity(h) {
      OpenConstraintsInAncestry(d.graph, d.state, h, c);
      ACRegistered(d.graph, h);
    }
  }

  lemma OwnUnityNotCommitted(g: Graph, D: set<VertexHash>, h: VertexHash)
    requires Grounded(g) && h in g && AllInserted(g, g[h].parents)
    ensures Unity(h) !in PC(g[h].parents)
    ensures Unity(h) !in Committed(g, Active(g, D, g[h].parents))
  {
    assert h !in g[h].parents by { assert ParentsBelow(g, g[h]); }
    forall x | x in Active(g, D, g[h].parents) && x in g
      ensures Unity(h) !in PC(g[x].parents)
    {
      ActiveSound(g, D, g[h].parents, x);
      assert ParentsBelow(g, g[x]) && ParentsBelow(g, g[h]);
    }
  }

  lemma BallotDistinct(d: Dag, h: VertexHash, preferred: bool, order: seq<VertexHash>)
    requires WellFormed(d) && h in d.pending && Legal(d, Vote(h, preferred, order))
    ensures Distinct(Ballot(d, h, preferred, order))
    ensures var cs := Ballot(d, h, preferred, order); |cs| > 0 && cs[|cs| - 1] == Unity(h)
  {
    PendingVertex(d, h);
    LegalSearch(d, h, preferred, order);
    OwnUnityNotCommitted(d.graph, DecidedIn(d.graph, d.state), h);
    VoteListDistinct(d.graph, Awarded(d, h, preferred), d.pending[h], order);
  }

  /** Recording a vote is voting on each constraint of the ballot in turn. */
  lemma RecordIsVoteAll(d: Dag, h: VertexHash, preferred: bool, order: seq<VertexHash>)
    requires WellFormed(d) && h in d.pending && Legal(d, Vote(h, preferred, order))
    ensures Grounded(d.graph) && d.cfg.Valid()
    ensures RecordVote(d, h, preferred, order).state ==
            VoteAll(d.cfg, d.graph, Awarded(d, h, preferred), Ballot(d, h, preferred, order), preferred)
    ensures HaveKeys(Awarded(d, h, preferred), Ballot(d, h, preferred, order))
    ensures Distinct(Ballot(d, h, preferred, order))
    ensures StateOk(d.graph, Awarded(d, h, preferred))
  {
    GraphOf(d);
    assert RecordVote(d, h, preferred, order).state ==
           VoteAll(d.cfg, d.graph, Awarded(d, h, preferred), Ballot(d, h, preferred, order), preferred);
    hide WellFormed, Legal, RecordVote, VoteAll, StateOk, Grounded;
    AwardedFacts(d, h, preferred);
    VoteListRegistered(d, h, Awarded(d, h, preferred), order);
    BallotDistinct(d, h, preferred, order);
  }

  lemma AwardedDec(d: Dag, h: VertexHash, preferred: bool)
    requires WellFormed(d) && h in d.pending
    ensures forall c :: Dec(Awarded(d, h, preferred), c) == Dec(d.state, c)
    ensures forall c :: Count(Awarded(d, h, preferred), c) == Count(d.state, c)
  {
    AwardedFacts(d, h, preferred);
  }
}

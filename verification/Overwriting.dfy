/**
 When a vote overwrites decisions (src/consensus/dag.rs: `record_query_result`).  Accepting one
 order of a pair rejects whatever lies below the opposite, accepted or not; and the voted vertex
 itself is decided on even if it was rejected.  Both are characterised by what can be read before
 the vote, the second as long as nothing has been overwritten, and with them the runs in which
 nothing ever is.
 */
module Overwriting {
  import opened Wrappers
  import opened Vertices
  import opened Ancestry
  import opened DagTypes
  import opened Search
  import opened ActiveSets
  import opened Voting
  import opened Insertion
  import opened Dags
  import opened Steps
  import opened Runs
  import opened Ballots
  import opened BallotOrder
  import opened Safety
  import opened Finality

  // ----- what one vote decides -----

  /** The counter of `c` after one more positive vote on it. */
  ghost function NextCount(st: State, c: Constraint): nat {
    if c.Key() in st && st[c.Key()].last == c then Count(st, c) + 1 else 1
  }

  /** One more positive vote brings `c` to the acceptance threshold. */
  ghost predicate Ripe(cfg: Config, st: State, c: Constraint) {
    NextCount(st, c) >= cfg.threshAccepted
  }

  /** A positive vote on `c` accepts it and thereby rejects `e`. */
  ghost predicate Strikes(cfg: Config, g: Graph, st: State, c: Constraint, e: Constraint)
    requires Grounded(g)
  {
    !c.IsUnity() && Ripe(cfg, st, c) && e in Reach(g, c.Flip())
  }

  ghost predicate Struck(cfg: Config, g: Graph, st: State, cs: seq<Constraint>, e: Constraint)
    requires Grounded(g)
  {
    exists c :: c in cs && Strikes(cfg, g, st, c, e)
  }

  /** One more positive vote accepts `c`: its counter comes to the threshold, or, if it can have no
      conflict, to the early one while all its constraint parents are accepted. */
  ghost predicate Settles(cfg: Config, g: Graph, st: State, c: Constraint) {
    || Ripe(cfg, st, c)
    || (c.IsUnity() && NextCount(st, c) >= cfg.threshSafeEarlyCommit &&
        forall p :: p in ConstraintParents(g, c) ==> Accepted(st, p))
  }

  /** A positive vote on `c` decides on `c` itself if it settles it, rejects what it strikes, and
      decides on nothing else. */
  lemma VoteForDecision(cfg: Config, g: Graph, st: State, c: Constraint, e: Constraint)
    requires Grounded(g) && StateOk(g, st) && c.Key() in st
    ensures Dec(VoteFor(cfg, g, st, c), e) ==
            if e == c then (if Settles(cfg, g, st, c) then Some(true) else Dec(st, c))
            else if Strikes(cfg, g, st, c, e) then Some(false)
            else Dec(st, e)
  {
    hide Grounded, StateOk, Reach, Dec, Tally, Accept, ConstraintParents;
    KeysOfReg(g, st);
    VoteForFacts(cfg, g, st, c, e);
    forall d { TallyFacts(g, st, c, d); }
  }

  /** All decisions after a positive vote on `c`. */
  ghost predicate Decides(cfg: Config, g: Graph, st: State, c: Constraint, st': State)
    requires Grounded(g)
  {
    forall e ::
      Dec(st', e) ==
      if e == c then (if Settles(cfg, g, st, c) then Some(true) else Dec(st, c))
      else if Strikes(cfg, g, st, c, e) then Some(false)
      else Dec(st, e)
  }

  lemma VoteForDecides(cfg: Config, g: Graph, st: State, c: Constraint)
    requires Grounded(g) && StateOk(g, st) && c.Key() in st
    ensures Decides(cfg, g, st, c, VoteFor(cfg, g, st, c))
  {
    hide StateOk, VoteFor, Settles, Strikes, Dec;
    forall e { VoteForDecision(cfg, g, st, c, e); }
  }

  // ----- what a list of votes decides -----

  /** A list a vote may walk: registered keys, nothing twice, never both orders. */
  ghost predicate Walk(st: State, cs: seq<Constraint>) {
    HaveKeys(st, cs) && Distinct(cs) && OneOrderEach(cs)
  }

  lemma WalkSplits(st: State, cs: seq<Constraint>)
    requires Walk(st, cs) && cs != []
    ensures var rest, last := cs[..|cs| - 1], cs[|cs| - 1];
            && Walk(st, rest) && last.Key() in st && last !in rest
            && (forall c :: c in cs <==> c in rest || c == last)
            && (forall c :: c in rest ==> c.Key() != last.Key())
  {
    var rest, last := cs[..|cs| - 1], cs[|cs| - 1];
    assert cs == rest + [last];
    forall c | c in rest
      ensures c.Key() != last.Key()
    {
      KeyIdentifiesConflictSet(c, last);
    }
  }

  /** A constraint which is not walked ends up rejected if a walked pair strikes it, and keeps its
      decision otherwise. */
  lemma {:induction false} UnwalkedDecision(cfg: Config, g: Graph, st: State, cs: seq<Constraint>, e: Constraint)
    requires Grounded(g) && StateOk(g, st) && Walk(st, cs) && e !in cs
    ensures Dec(VoteAll(cfg, g, st, cs, true), e) == if Struck(cfg, g, st, cs, e) then Some(false) else Dec(st, e)
  {
    hide StateOk, Walk, Dec, Reach, VoteFor;
    if cs != [] {
      var rest, last := cs[..|cs| - 1], cs[|cs| - 1];
      var mid := VoteAll(cfg, g, st, rest, true);
      WalkSplits(st, cs);
      UnwalkedDecision(cfg, g, st, rest, e);
      VoteAllStateOk(cfg, g, st, rest, true);
      VoteAllElsewhere(cfg, g, st, rest, true, last.Key());
      VoteForDecision(cfg, g, mid, last, e);
      assert Strikes(cfg, g, mid, last, e) == Strikes(cfg, g, st, last, e);
    }
  }

  /** The decision on a walked constraint: the last word has a pair walked after it which strikes it,
      then its own turn, then a pair walked before it. */
  lemma {:induction false} WalkedDecision(cfg: Config, g: Graph, st: State, cs: seq<Constraint>, i: nat)
    requires Grounded(g) && StateOk(g, st) && Walk(st, cs) && i < |cs|
    ensures Dec(VoteAll(cfg, g, st, cs, true), cs[i]) ==
            if Struck(cfg, g, st, cs[i + 1..], cs[i]) then Some(false)
            else if Settles(cfg, g, VoteAll(cfg, g, st, cs[..i], true), cs[i]) then Some(true)
            else if Struck(cfg, g, st, cs[..i], cs[i]) then Some(false)
            else Dec(st, cs[i])
  {
    hide StateOk, Walk, Dec, Reach, VoteFor, Settles;
    var rest, last := cs[..|cs| - 1], cs[|cs| - 1];
    var mid := VoteAll(cfg, g, st, rest, true);
    WalkSplits(st, cs);
    VoteAllStateOk(cfg, g, st, rest, true);
    VoteForDecision(cfg, g, mid, last, cs[i]);
    if i == |cs| - 1 {
      UnwalkedDecision(cfg, g, st, rest, last);
    } else {
      VoteAllElsewhere(cfg, g, st, rest, true, last.Key());
      WalkedDecision(cfg, g, st, rest, i);
      assert Strikes(cfg, g, mid, last, cs[i]) == Strikes(cfg, g, st, last, cs[i]);
      assert cs[..i] == rest[..i] && cs[i + 1..] == rest[i + 1..] + [last] && rest[i] in rest;
    }
  }

  /** So a walked constraint which nothing strikes is accepted exactly if its turn settles it. */
  lemma UnstruckDecision(cfg: Config, g: Graph, st: State, cs: seq<Constraint>, i: nat)
    requires Grounded(g) && StateOk(g, st) && Walk(st, cs) && i < |cs| && !Struck(cfg, g, st, cs, cs[i])
    ensures Dec(VoteAll(cfg, g, st, cs, true), cs[i]) ==
            if Settles(cfg, g, VoteAll(cfg, g, st, cs[..i], true), cs[i]) then Some(true) else Dec(st, cs[i])
  {
    hide StateOk, Walk, Dec, Settles, Strikes, VoteAll;
    WalkedDecision(cfg, g, st, cs, i);
  }

  /** The counter of a walked constraint is not touched before its turn. */
  lemma TurnCounter(cfg: Config, g: Graph, st: State, cs: seq<Constraint>, i: nat)
    requires Grounded(g) && Walk(st, cs) && i < |cs|
    ensures cs[i].Key() in st && NextCount(VoteAll(cfg, g, st, cs[..i], true), cs[i]) == NextCount(st, cs[i])
  {
    assert cs[i] in cs;
    forall c | c in cs[..i] ensures c.Key() != cs[i].Key() { KeyIdentifiesConflictSet(c, cs[i]); }
    VoteAllElsewhere(cfg, g, st, cs[..i], true, cs[i].Key());
  }

  /** The `i`-th constraint of a list falls due, by the state before: it is ripe, or it is a vertex
      at the early threshold whose constraint parents are accepted or fall due before it. */
  ghost predicate Due(cfg: Config, g: Graph, st: State, cs: seq<Constraint>, i: nat)
    requires i < |cs|
    decreases i
  {
    || Ripe(cfg, st, cs[i])
    || (cs[i].IsUnity() && NextCount(st, cs[i]) >= cfg.threshSafeEarlyCommit &&
        forall p :: p in ConstraintParents(g, cs[i]) ==>
                      Accepted(st, p) || exists j: nat :: j < i && cs[j] == p && Due(cfg, g, st, cs, j))
  }

  /** What a list of votes up to a vertex has made of one of its constraint parents. */
  lemma ParentAtTurn(cfg: Config, g: Graph, st: State, cs: seq<Constraint>, i: nat, p: Constraint)
    requires Grounded(g) && StateOk(g, st) && Walk(st, cs) && i < |cs| && cs[i].IsUnity() && cs[i] in Reg(g)
    requires !Struck(cfg, g, st, cs[..i], cs[i]) && p in ConstraintParents(g, cs[i])
    requires forall j: nat :: j < i && !Struck(cfg, g, st, cs[..j], cs[j]) ==>
               (Settles(cfg, g, VoteAll(cfg, g, st, cs[..j], true), cs[j]) <==> Due(cfg, g, st, cs, j))
    ensures Accepted(VoteAll(cfg, g, st, cs[..i], true), p) <==>
            Accepted(st, p) || exists j: nat :: j < i && cs[j] == p && Due(cfg, g, st, cs, j)
  {
    hide StateOk, Walk, Dec, Reach, VoteAll, Settles, Due, ConstraintParents, Ripe, Grounded;
    var before := cs[..i];
    WalkPrefix(st, cs, i);
    RegEndpoints(g, cs[i]);
    forall c | c in before
      ensures Strikes(cfg, g, st, c, p) ==> Strikes(cfg, g, st, c, cs[i])
    {
      if Strikes(cfg, g, st, c, p) { ParentStruckToo(g, c.Flip(), cs[i].left, p); }
    }
    if p in before {
      var j: nat :| j < i && before[j] == p;
      assert before[..j] == cs[..j] && !Struck(cfg, g, st, cs[..j], p);
      UnstruckDecision(cfg, g, st, before, j);
      OnlyPlace(st, cs, j);
    } else {
      UnwalkedDecision(cfg, g, st, before, p);
      assert forall j: nat :: j < i ==> cs[j] in before;
    }
  }

  lemma WalkPrefix(st: State, cs: seq<Constraint>, i: nat)
    requires Walk(st, cs) && i <= |cs|
    ensures Walk(st, cs[..i])
  {
  }

  lemma OnlyPlace(st: State, cs: seq<Constraint>, j: nat)
    requires Walk(st, cs) && j < |cs|
    ensures forall k: nat :: k < |cs| && cs[k] == cs[j] ==> k == j
  {
  }

  /** A walked constraint which nothing walked before strikes is settled by its turn exactly if it
      falls due. */
  lemma {:induction false} SettledIfDue(cfg: Config, g: Graph, st: State, cs: seq<Constraint>, i: nat)
    requires Grounded(g) && StateOk(g, st) && Walk(st, cs) && i < |cs| && forall c :: c in cs ==> c in Reg(g)
    requires !Struck(cfg, g, st, cs[..i], cs[i])
    ensures Settles(cfg, g, VoteAll(cfg, g, st, cs[..i], true), cs[i]) <==> Due(cfg, g, st, cs, i)
    decreases i
  {
    hide StateOk, Walk, Dec, VoteAll, ConstraintParents, Struck, Reg, Grounded, NextCount;
    TurnCounter(cfg, g, st, cs, i);
    forall j: nat | j < i && !Struck(cfg, g, st, cs[..j], cs[j])
      ensures Settles(cfg, g, VoteAll(cfg, g, st, cs[..j], true), cs[j]) <==> Due(cfg, g, st, cs, j)
    {
      SettledIfDue(cfg, g, st, cs, j);
    }
    if cs[i].IsUnity() {
      forall p | p in ConstraintParents(g, cs[i])
        ensures Accepted(VoteAll(cfg, g, st, cs[..i], true), p) <==>
                Accepted(st, p) || exists j: nat :: j < i && cs[j] == p && Due(cfg, g, st, cs, j)
      {
        ParentAtTurn(cfg, g, st, cs, i, p);
      }
    }
  }

  lemma {:induction false} SameDue(cfg: Config, g: Graph, st: State, st': State, cs: seq<Constraint>, i: nat)
    requires i < |cs| && forall c :: NextCount(st, c) == NextCount(st', c) && Dec(st, c) == Dec(st', c)
    ensures Due(cfg, g, st, cs, i) == Due(cfg, g, st', cs, i)
    decreases i
  {
    hide NextCount, Dec, ConstraintParents;
    forall j: nat | j < i ensures Due(cfg, g, st, cs, j) == Due(cfg, g, st', cs, j) { SameDue(cfg, g, st, st', cs, j); }
  }

  // ----- one recorded vote -----

  lemma AwardedRipe(d: Dag, h: VertexHash, c: Constraint)
    requires WellFormed(d) && h in d.pending
    ensures NextCount(Awarded(d, h, true), c) == NextCount(d.state, c)
  {
    hide WellFormed, StateOk, Award, Count;
    AwardedFacts(d, h, true);
    if c.Key() in d.state { AwardedSameVotes(d.state, Unity(h), c.Key()); }
  }

  /** What the positive vote on `h` walks, and that nothing about ripeness depends on its chit. */
  lemma BallotWalk(d: Dag, h: VertexHash, order: seq<VertexHash>)
    requires WellFormed(d) && h in d.pending && Legal(d, Vote(h, true, order))
    requires NoOpenConflicts(d.cfg.genesis, d.graph, d.state)
    ensures Grounded(d.graph) && d.cfg.Valid()
    ensures var st, cs := Awarded(d, h, true), Ballot(d, h, true, order);
            && StateOk(d.graph, st) && Walk(st, cs)
            && RecordVote(d, h, true, order).state == VoteAll(d.cfg, d.graph, st, cs, true)
            && (forall e :: Dec(st, e) == Dec(d.state, e))
            && (forall e :: Struck(d.cfg, d.graph, st, cs, e) == Struck(d.cfg, d.graph, d.state, cs, e))
  {
    hide WellFormed, Legal, StateOk, Grounded, Ballot, Awarded, VoteAll, RecordVote, HaveKeys, Distinct, Dec, Reach,
         NextCount, NoOpenConflicts;
    var st, cs := Awarded(d, h, true), Ballot(d, h, true, order);
    RecordIsVoteAll(d, h, true, order);
    forall c | c in cs && !c.IsUnity() ensures c.Flip() !in cs { BallotConflictFree(d, h, true, order, c); }
    AwardedDec(d, h, true);
    forall c, e
      ensures Strikes(d.cfg, d.graph, st, c, e) == Strikes(d.cfg, d.graph, d.state, c, e)
    {
      AwardedRipe(d, h, c);
    }
  }

  /** The decision on a constraint which the vote does not walk. */
  lemma DecisionAfter(d: Dag, h: VertexHash, order: seq<VertexHash>, e: Constraint)
    requires WellFormed(d) && h in d.pending && Legal(d, Vote(h, true, order))
    requires NoOpenConflicts(d.cfg.genesis, d.graph, d.state) && e !in Ballot(d, h, true, order)
    ensures Grounded(d.graph)
    ensures Dec(RecordVote(d, h, true, order).state, e) ==
            if Struck(d.cfg, d.graph, d.state, Ballot(d, h, true, order), e) then Some(false) else Dec(d.state, e)
  {
    hide WellFormed, Legal, StateOk, Grounded, Ballot, Awarded, VoteAll, RecordVote, Walk, Dec, Struck,
         NoOpenConflicts;
    BallotWalk(d, h, order);
    UnwalkedDecision(d.cfg, d.graph, Awarded(d, h, true), Ballot(d, h, true, order), e);
  }

  /** In every run, a positive vote on `h` rejects an accepted constraint other than `h` itself
      exactly when it walks a ripe pair below whose opposite the constraint lies; otherwise the
      constraint stays accepted. */
  lemma AcceptedOverwritten(cfg: Config, v0: Vertex, evs: seq<Event>, h: VertexHash, order: seq<VertexHash>,
                            e: Constraint)
    requires cfg.Valid() && IsGenesis(cfg, v0) && IsRun(cfg, v0, evs)
    requires h in Run(cfg, v0, evs).pending && Legal(Run(cfg, v0, evs), Vote(h, true, order))
    requires Accepted(Run(cfg, v0, evs).state, e) && e != Unity(h)
    ensures var d := Run(cfg, v0, evs); var st := Apply(d, Vote(h, true, order)).state;
            && Grounded(d.graph)
            && (Rejected(st, e) <==> Struck(cfg, d.graph, d.state, Ballot(d, h, true, order), e))
            && (Accepted(st, e) <==> !Struck(cfg, d.graph, d.state, Ballot(d, h, true, order), e))
  {
    hide WellFormed, Legal, Run, IsRun, Apply, RecordVote, Ballot, Struck, Dec, NoOpenConflicts, OppositesRejected,
         CountsSupported, AcceptancesBacked;
    var d := Run(cfg, v0, evs);
    EveryRunSafe(cfg, v0, evs);
    VoteCases(d, h, true, order);
    if e in Ballot(d, h, true, order) { BallotBacked(d, h, true, order, e); }
    DecisionAfter(d, h, order, e);
  }

  /** In every run, a positive vote accepts a constraint which it walks and does not strike exactly
      if the constraint falls due, and otherwise leaves the decision on it as it was. */
  lemma WalkedInRuns(cfg: Config, v0: Vertex, evs: seq<Event>, h: VertexHash, order: seq<VertexHash>, i: nat)
    requires cfg.Valid() && IsGenesis(cfg, v0) && IsRun(cfg, v0, evs)
    requires h in Run(cfg, v0, evs).pending && Legal(Run(cfg, v0, evs), Vote(h, true, order))
    requires i < |Ballot(Run(cfg, v0, evs), h, true, order)|
    ensures var d := Run(cfg, v0, evs); var cs := Ballot(d, h, true, order);
            && Grounded(d.graph)
            && (!Struck(cfg, d.graph, d.state, cs, cs[i]) ==>
                  Dec(Apply(d, Vote(h, true, order)).state, cs[i]) ==
                  if Due(cfg, d.graph, d.state, cs, i) then Some(true) else Dec(d.state, cs[i]))
  {
    hide WellFormed, Legal, Run, IsRun, Apply, RecordVote, Ballot, Struck, Dec, NoOpenConflicts, OppositesRejected,
         CountsSupported, AcceptancesBacked, StateOk, Walk, Settles, Due, NextCount, Awarded, VoteAll, Grounded, Reg;
    var d := Run(cfg, v0, evs);
    EveryRunSafe(cfg, v0, evs);
    VoteCases(d, h, true, order);
    BallotWalk(d, h, order);
    var cs, st := Ballot(d, h, true, order), Awarded(d, h, true);
    forall c | c in cs ensures c in Reg(d.graph) { BallotBacked(d, h, true, order, c); }
    forall c ensures NextCount(st, c) == NextCount(d.state, c) { AwardedRipe(d, h, c); }
    SameDue(cfg, d.graph, st, d.state, cs, i);
    if !Struck(cfg, d.graph, d.state, cs, cs[i]) {
      StruckBefore(cfg, d.graph, st, cs, i);
      SettledIfDue(cfg, d.graph, st, cs, i);
      UnstruckDecision(cfg, d.graph, st, cs, i);
    }
  }

  lemma StruckBefore(cfg: Config, g: Graph, st: State, cs: seq<Constraint>, i: nat)
    requires Grounded(g) && i < |cs| && !Struck(cfg, g, st, cs, cs[i])
    ensures !Struck(cfg, g, st, cs[..i], cs[i])
  {
    hide Strikes;
  }

  // ----- a rejected vertex can be accepted -----

  /** Rejected constraints stay rejected until they are voted on. */
  lemma {:induction false} RejectedUntilVoted(cfg: Config, g: Graph, st: State, cs: seq<Constraint>, d: Constraint)
    requires Grounded(g) && StateOk(g, st) && HaveKeys(st, cs) && d !in cs && Rejected(st, d)
    ensures Rejected(VoteAll(cfg, g, st, cs, true), d)
  {
    if cs != [] {
      var rest, c := cs[..|cs| - 1], cs[|cs| - 1];
      RejectedUntilVoted(cfg, g, st, rest, d);
      VoteAllStateOk(cfg, g, st, rest, true);
      VoteForFacts(cfg, g, VoteAll(cfg, g, st, rest, true), c, d);
    }
  }

  /** Before the voted vertex itself is dealt with, its counter has not moved. */
  lemma OwnCounter(d: Dag, h: VertexHash, order: seq<VertexHash>)
    requires WellFormed(d) && h in d.pending && Legal(d, Vote(h, true, order))
    ensures var u, cs := Unity(h), Ballot(d, h, true, order);
            && |cs| > 0 && cs[|cs| - 1] == u && u !in cs[..|cs| - 1] && Grounded(d.graph)
            && var before := VoteAll(d.cfg, d.graph, Awarded(d, h, true), cs[..|cs| - 1], true);
               && StateOk(d.graph, before) && u.Key() in before && before[u.Key()].last == u
               && Count(before, u) == Count(d.state, u)
  {
    hide WellFormed, Legal, StateOk, Grounded, Ballot, Awarded, VoteAll, Distinct;
    GraphOf(d);
    var u, cs, st := Unity(h), Ballot(d, h, true, order), Awarded(d, h, true);
    RecordIsVoteAll(d, h, true, order);
    BallotDistinct(d, h, true, order);
    var rest := cs[..|cs| - 1];
    AwardedFacts(d, h, true);
    PendingVertex(d, h);
    VoteAllStateOk(d.cfg, d.graph, st, rest, true);
    forall c | c in rest ensures c.Key() != u.Key() { KeyIdentifiesConflictSet(u, c); }
    VoteAllElsewhere(d.cfg, d.graph, st, rest, true, u.Key());
    UnityIsLast(d.graph, VoteAll(d.cfg, d.graph, st, rest, true), h);
  }

  lemma UnityIsLast(g: Graph, st: State, h: VertexHash)
    requires StateOk(g, st) && Unity(h).Key() in st
    ensures st[Unity(h).Key()].last == Unity(h)
  {
    assert ConflictSetOk(g, Unity(h).Key(), st[Unity(h).Key()]);
    KeyIdentifiesConflictSet(Unity(h), st[Unity(h).Key()].last);
  }

  /** The vote decides in favour of its own vertex: at the threshold, or at the early one if all
      it commits to is accepted once the rest has been walked. */
  ghost predicate Admits(d: Dag, h: VertexHash, order: seq<VertexHash>)
    requires Grounded(d.graph) && h in d.pending
  {
    || Ripe(d.cfg, d.state, Unity(h))
    || (NextCount(d.state, Unity(h)) >= d.cfg.threshSafeEarlyCommit &&
        ParentsAccepted(d.graph, RecordVote(d, h, true, order).state, Unity(h)))
  }

  lemma OwnNextCount(d: Dag, h: VertexHash)
    requires WellFormed(d) && h in d.pending
    ensures NextCount(d.state, Unity(h)) == Count(d.state, Unity(h)) + 1
  {
    hide WellFormed, StateOk, Count;
    GraphOf(d);
    PendingVertex(d, h);
    UnityIsLast(d.graph, d.state, h);
  }

  /** Deciding on a vertex does not touch what it commits to. */
  lemma OwnParentsUntouched(cfg: Config, g: Graph, st: State, h: VertexHash)
    requires Grounded(g) && StateOk(g, st) && h in g && Unity(h).Key() in st
    ensures ParentsAccepted(g, VoteFor(cfg, g, st, Unity(h)), Unity(h)) == ParentsAccepted(g, st, Unity(h))
    ensures ParentsAccepted(g, Tally(g, st, Unity(h)), Unity(h)) == ParentsAccepted(g, st, Unity(h))
  {
    hide StateOk, VoteFor, Tally, Dec;
    forall p | p in ConstraintParents(g, Unity(h))
      ensures Dec(VoteFor(cfg, g, st, Unity(h)), p) == Dec(st, p)
      ensures Dec(Tally(g, st, Unity(h)), p) == Dec(st, p)
    {
      VoteForDecision(cfg, g, st, Unity(h), p);
      TallyFacts(g, st, Unity(h), p);
    }
  }

  /** A positive vote accepts its own vertex exactly when it admits it; otherwise it leaves the
      decision as the rest of the list has left it. */
  lemma OwnDecision(d: Dag, h: VertexHash, order: seq<VertexHash>)
    requires WellFormed(d) && h in d.pending && Legal(d, Vote(h, true, order))
    ensures Grounded(d.graph) && |Ballot(d, h, true, order)| > 0
    ensures var cs := Ballot(d, h, true, order);
            Dec(RecordVote(d, h, true, order).state, Unity(h)) ==
            if Admits(d, h, order) then Some(true)
            else Dec(VoteAll(d.cfg, d.graph, Awarded(d, h, true), cs[..|cs| - 1], true), Unity(h))
  {
    hide WellFormed, Legal, StateOk, Ballot, Awarded, Dec, Tally, VoteFor, RecordVote, Distinct, HaveKeys,
         ConstraintParents, Grounded, NoOpenConflicts;
    OwnCounter(d, h, order);
    OwnNextCount(d, h);
    PendingVertex(d, h);
    RecordIsVoteAll(d, h, true, order);
    var u, cs, st := Unity(h), Ballot(d, h, true, order), Awarded(d, h, true);
    var before := VoteAll(d.cfg, d.graph, st, cs[..|cs| - 1], true);
    VoteForDecision(d.cfg, d.graph, before, u, u);
    OwnParentsUntouched(d.cfg, d.graph, before, h);
  }

  /** A rejected vertex waiting for a result is accepted by a positive vote exactly when the vote
      admits it. */
  lemma RejectedVertexAccepted(d: Dag, h: VertexHash, order: seq<VertexHash>)
    requires WellFormed(d) && h in d.pending && Legal(d, Vote(h, true, order)) && Rejected(d.state, Unity(h))
    ensures Grounded(d.graph)
    ensures var st := Apply(d, Vote(h, true, order)).state;
            if Admits(d, h, order) then Accepted(st, Unity(h)) else Rejected(st, Unity(h))
  {
    hide WellFormed, Legal, StateOk, Grounded, Ballot, Awarded, Dec, VoteAll, Apply, RecordVote, Admits, Distinct;
    OwnDecision(d, h, order);
    OwnCounter(d, h, order);
    RecordIsVoteAll(d, h, true, order);
    AwardedFacts(d, h, true);
    VoteCases(d, h, true, order);
    var cs := Ballot(d, h, true, order);
    RejectedUntilVoted(d.cfg, d.graph, Awarded(d, h, true), cs[..|cs| - 1], Unity(h));
  }

  lemma OwnParents(g: Graph, h: VertexHash)
    requires Grounded(g) && h in g
    ensures ConstraintParents(g, Unity(h)) == PC(g[h].parents) && Unity(h) !in PC(g[h].parents)
  {
  }

  // ----- why an accepted vertex survives its own vote -----

  /** An accepted vertex has been counted far enough: to the threshold, or to the early one with
      all it commits to accepted. */
  ghost predicate Justified(cfg: Config, g: Graph, st: State, x: VertexHash) {
    Accepted(st, Unity(x)) ==>
      && Count(st, Unity(x)) >= cfg.threshSafeEarlyCommit
      && (Count(st, Unity(x)) >= cfg.threshAccepted || ParentsAccepted(g, st, Unity(x)))
  }

  lemma OwnVoteJustified(cfg: Config, g: Graph, st: State, x: VertexHash)
    requires Grounded(g) && StateOk(g, st) && cfg.Valid() && x in g && Unity(x).Key() in st && Justified(cfg, g, st, x)
    ensures Justified(cfg, g, VoteFor(cfg, g, st, Unity(x)), x)
  {
    hide Grounded, StateOk, VoteFor, Tally, Dec, ParentsAccepted, Count;
    var u := Unity(x);
    OwnParentsUntouched(cfg, g, st, x);
    UnityIsLast(g, st, x);
    KeysOfReg(g, st);
    VoteForFacts(cfg, g, st, u, u);
    TallyFacts(g, st, u, u);
  }

  lemma ParentStruckToo(g: Graph, c: Constraint, x: VertexHash, p: Constraint)
    requires Grounded(g) && x in g && p in ConstraintParents(g, Unity(x)) && p in Reach(g, c)
    ensures Unity(x) in Reach(g, c)
  {
    hide ConstraintParents;
    RegMember(g, x, Unity(x));
    KidIsBelow(g, p, Unity(x));
    if p != c { BelowTrans(g, c, p, Unity(x)); }
  }

  lemma OtherVoteJustified(cfg: Config, g: Graph, st: State, c: Constraint, x: VertexHash)
    requires Grounded(g) && StateOk(g, st) && c.Key() in st && x in g && c != Unity(x) && Justified(cfg, g, st, x)
    ensures Justified(cfg, g, VoteFor(cfg, g, st, c), x)
  {
    hide Grounded, StateOk, VoteFor, Tally, Dec, Reach, ConstraintParents, NextCount;
    var u, st' := Unity(x), VoteFor(cfg, g, st, c);
    CountElsewhere(cfg, g, st, c, u);
    VoteForDecision(cfg, g, st, c, u);
    if Accepted(st', u) && ParentsAccepted(g, st, u) {
      forall p | p in ConstraintParents(g, u)
        ensures Accepted(st', p)
      {
        assert Accepted(st, p);
        VoteForDecision(cfg, g, st, c, p);
        if Strikes(cfg, g, st, c, p) { ParentStruckToo(g, c.Flip(), x, p); }
      }
    }
  }

  lemma {:induction false} VotesJustified(cfg: Config, g: Graph, st: State, cs: seq<Constraint>, x: VertexHash)
    requires Grounded(g) && StateOk(g, st) && HaveKeys(st, cs) && cfg.Valid()
    requires x in g && Unity(x).Key() in st && Justified(cfg, g, st, x)
    ensures Justified(cfg, g, VoteAll(cfg, g, st, cs, true), x)
  {
    hide Grounded, StateOk, VoteFor, Justified;
    if cs != [] {
      var rest, c := cs[..|cs| - 1], cs[|cs| - 1];
      VotesJustified(cfg, g, st, rest, x);
      VoteAllStateOk(cfg, g, st, rest, true);
      var mid := VoteAll(cfg, g, st, rest, true);
      if c == Unity(x) { OwnVoteJustified(cfg, g, mid, x); } else { OtherVoteJustified(cfg, g, mid, c, x); }
    }
  }

  lemma VoteKeepsJustified(d: Dag, h: VertexHash, preferred: bool, order: seq<VertexHash>, x: VertexHash)
    requires WellFormed(d) && h in d.pending && Legal(d, Vote(h, preferred, order)) && x in d.pending && x != h
    requires Justified(d.cfg, d.graph, d.state, x)
    ensures Justified(d.cfg, d.graph, RecordVote(d, h, preferred, order).state, x)
  {
    hide WellFormed, Legal, StateOk, Grounded, Ballot, Awarded, VoteAll, RecordVote, Dec, HaveKeys, Distinct;
    GraphOf(d);
    PendingVertex(d, x);
    AwardedFacts(d, h, preferred);
    var cs, st := Ballot(d, h, preferred, order), Awarded(d, h, preferred);
    RecordIsVoteAll(d, h, preferred, order);
    if preferred {
      VotesJustified(d.cfg, d.graph, st, cs, x);
    } else {
      VoteAllAgainst(d.cfg, d.graph, st, cs);
      AgainstJustified(d, h, order, x);
    }
  }

  /** A negative vote resets no accepted vertex but its own. */
  lemma AgainstJustified(d: Dag, h: VertexHash, order: seq<VertexHash>, x: VertexHash)
    requires WellFormed(d) && h in d.pending && Legal(d, Vote(h, false, order)) && x != h
    requires Justified(d.cfg, d.graph, d.state, x)
    ensures Justified(d.cfg, d.graph, RecordVote(d, h, false, order).state, x)
  {
    hide WellFormed, Legal, StateOk, Grounded, Ballot, VoteAll, RecordVote, Dec, HaveKeys, Distinct;
    RecordIsVoteAll(d, h, false, order);
    VoteAllAgainst(d.cfg, d.graph, d.state, Ballot(d, h, false, order));
    if Unity(x) in Ballot(d, h, false, order) {
      BallotBacked(d, h, false, order, Unity(x));
    } else {
    }
  }

  lemma InsertKeepsJustified(d: Dag, v: Vertex, x: VertexHash)
    requires WellFormed(d) && Joins(d.graph, v) && x in d.pending && Justified(d.cfg, d.graph, d.state, x)
    ensures Justified(d.cfg, With(d.graph, v), InsertState(d.graph, d.state, v), x)
  {
    hide WellFormed, StateOk, InsertState, Joins, With, Dec, ConstraintParents, Grounded, Count, ParentsAccepted;
    GraphOf(d);
    PendingVertex(d, x);
    InsertKeeps(d.graph, d.state, v, Unity(x));
    if ParentsAccepted(d.graph, d.state, Unity(x)) { ParentsStayAccepted(d, v, Unity(x)); }
  }

  lemma {:induction false} PendingJustified(cfg: Config, v0: Vertex, evs: seq<Event>, x: VertexHash)
    requires cfg.Valid() && IsGenesis(cfg, v0) && IsRun(cfg, v0, evs) && x in Run(cfg, v0, evs).pending
    ensures Justified(cfg, Run(cfg, v0, evs).graph, Run(cfg, v0, evs).state, x)
    decreases |evs|
  {
    hide WellFormed, Legal, Next, First, Run, IsRun, Apply, Insert, Passes, Joins, Grounded, With, InsertState;
    if evs == [] {
      RunOfNothing(cfg, v0);
    } else {
      RunStep(cfg, v0, evs);
      var d, e := Run(cfg, v0, evs[..|evs| - 1]), evs[|evs| - 1];
      GraphOf(d);
      NextIsApply(d, e);
      if x in d.pending { PendingJustified(cfg, v0, evs[..|evs| - 1], x); }
      match e
      case Submit(v) =>
        SubmitCases(d, v);
        if Passes(d, v) {
          InsertParts(d, v);
          if x in d.pending { InsertKeepsJustified(d, v, x); }
        if x == v.hash {
          GraphOf(d);
          InsertUnity(d.graph, d.state, v);
        }
        }
      case Vote(h, preferred, order) =>
        VoteCases(d, h, preferred, order);
        if h in d.pending {
          VoteKeepsJustified(d, h, preferred, order, x);
        }
    }
  }

  // ----- what a vote spares -----

  /** No accepted constraint, other than the voted vertex itself, is struck. */
  ghost predicate Spares(d: Dag, h: VertexHash, order: seq<VertexHash>)
    requires Grounded(d.graph) && h in d.pending
  {
    forall e :: Accepted(d.state, e) && e != Unity(h) ==> !Struck(d.cfg, d.graph, d.state, Ballot(d, h, true, order), e)
  }

  lemma AcceptedAdmitted(cfg: Config, v0: Vertex, evs: seq<Event>, h: VertexHash, order: seq<VertexHash>)
    requires cfg.Valid() && IsGenesis(cfg, v0) && IsRun(cfg, v0, evs)
    requires h in Run(cfg, v0, evs).pending && Legal(Run(cfg, v0, evs), Vote(h, true, order))
    requires Grounded(Run(cfg, v0, evs).graph) && Spares(Run(cfg, v0, evs), h, order)
    requires Accepted(Run(cfg, v0, evs).state, Unity(h))
    ensures Admits(Run(cfg, v0, evs), h, order)
  {
    hide WellFormed, Legal, Run, IsRun, Apply, RecordVote, Ballot, Struck, Dec, Count, ConstraintParents, PC,
         Grounded;
    var d := Run(cfg, v0, evs);
    PendingJustified(cfg, v0, evs, h);
    OwnNextCount(d, h);
    PendingVertex(d, h);
    OwnParents(d.graph, h);
    VoteCases(d, h, true, order);
    if ParentsAccepted(d.graph, d.state, Unity(h)) {
      forall p | p in ConstraintParents(d.graph, Unity(h))
        ensures Accepted(RecordVote(d, h, true, order).state, p)
      {
        assert Accepted(d.state, p);
        AcceptedOverwritten(cfg, v0, evs, h, order, p);
      }
    }
  }

  lemma RejectedStays(cfg: Config, v0: Vertex, evs: seq<Event>, h: VertexHash, order: seq<VertexHash>, e: Constraint)
    requires cfg.Valid() && IsGenesis(cfg, v0) && IsRun(cfg, v0, evs)
    requires h in Run(cfg, v0, evs).pending && Legal(Run(cfg, v0, evs), Vote(h, true, order))
    requires Rejected(Run(cfg, v0, evs).state, e) && e != Unity(h)
    ensures Rejected(Apply(Run(cfg, v0, evs), Vote(h, true, order)).state, e)
  {
    hide WellFormed, Legal, Run, IsRun, Apply, RecordVote, Ballot, Struck, Dec, NoOpenConflicts, OppositesRejected,
         CountsSupported, AcceptancesBacked;
    var d := Run(cfg, v0, evs);
    EveryRunSafe(cfg, v0, evs);
    VoteCases(d, h, true, order);
    if e in Ballot(d, h, true, order) { BallotBacked(d, h, true, order, e); }
    DecisionAfter(d, h, order, e);
  }

  // ----- rejections while nothing is overwritten -----

  /** A vertex is rejected exactly along with something it commits to. */
  ghost predicate Faithful(g: Graph, st: State, x: VertexHash)
    requires x in g
  {
    Rejected(st, Unity(x)) <==> exists p :: p in PC(g[x].parents) && Rejected(st, p)
  }

  /** A list of votes rejects only what it strikes. */
  lemma {:induction false} RejectedIsStruck(cfg: Config, g: Graph, st: State, cs: seq<Constraint>, e: Constraint)
    requires Grounded(g) && StateOk(g, st) && Walk(st, cs)
    requires !Rejected(st, e) && Rejected(VoteAll(cfg, g, st, cs, true), e)
    ensures Struck(cfg, g, st, cs, e)
  {
    hide StateOk, Walk, Dec, Reach, VoteFor, Accepts, Tally;
    var rest, last := cs[..|cs| - 1], cs[|cs| - 1];
    var mid := VoteAll(cfg, g, st, rest, true);
    WalkSplits(st, cs);
    VoteAllStateOk(cfg, g, st, rest, true);
    VoteAllElsewhere(cfg, g, st, rest, true, last.Key());
    VoteForDecision(cfg, g, mid, last, e);
    assert Strikes(cfg, g, mid, last, e) == Strikes(cfg, g, st, last, e);
    if Rejected(mid, e) { RejectedIsStruck(cfg, g, st, rest, e); }
  }

  /** If no vertex whose ancestry commits to `o` is accepted, nor any met by the search rejected,
      the search meets an undecided vertex which commits to `o`. */
  lemma {:induction false} CommitterMet(g: Graph, st: State, p: VertexHash, o: Constraint) returns (z: VertexHash)
    requires Grounded(g) && p in g && o in AC(g, p)
    requires forall w :: w in Open(g, DecidedIn(g, st), p) ==> !Rejected(st, Unity(w))
    requires forall w :: w in AncEq(g, p) && o in AC(g, w) ==> !Accepted(st, Unity(w))
    ensures z in g && z in Open(g, DecidedIn(g, st), p) && Undecided(st, Unity(z)) && o in PC(g[z].parents)
    decreases g[p].height
  {
    hide AC, Anc, PC, Dec, Accepted, Rejected, Undecided;
    var D := DecidedIn(g, st);
    assert ParentsBelow(g, g[p]);
    DecidedCases(st, Unity(p));
    assert p in Open(g, D, p) && p in AncEq(g, p);
    if o in PC(g[p].parents) {
      z := p;
    } else {
      ACViaParent(g, p, o);
      var q :| q in g[p].parents && q in g && o in AC(g, q);
      AncEqOfParent(g, p, q);
      assert p !in D && Open(g, D, q) <= Open(g, D, p);
      z := CommitterMet(g, st, q, o);
    }
  }

  /** What is assumed of the state before a vote which overwrites nothing. */
  ghost predicate Unspoilt(d: Dag, k: VertexHash, order: seq<VertexHash>)
    requires WellFormed(d) && k in d.pending
  {
    && Legal(d, Vote(k, true, order)) && Grounded(d.graph)
    && NoOpenConflicts(d.cfg.genesis, d.graph, d.state) && OppositesRejected(d.state)
    && Spares(d, k, order)
    && forall x :: x in d.graph ==> Faithful(d.graph, d.state, x)
  }

  lemma OppositeOpen(d: Dag, k: VertexHash, order: seq<VertexHash>, c: Constraint)
    requires WellFormed(d) && k in d.pending && Unspoilt(d, k, order)
    requires c in Ballot(d, k, true, order) && !c.IsUnity()
    ensures !Accepted(d.state, c.Flip()) && c.Flip() !in Ballot(d, k, true, order)
  {
    hide WellFormed, Legal, Ballot, Spares, NoOpenConflicts, Dec, Grounded, Faithful;
    BallotConflictFree(d, k, true, order, c);
    BallotBacked(d, k, true, order, c);
    assert c.Flip().Flip() == c;
  }

  /** No vertex met by the search, `k` apart, has the opposite of an accepted pair above it. */
  lemma NotAboveParent(d: Dag, k: VertexHash, order: seq<VertexHash>, c: Constraint, p: VertexHash)
    requires WellFormed(d) && k in d.pending && Unspoilt(d, k, order) && k in d.graph
    requires c in Ballot(d, k, true, order) && !c.IsUnity() && Ripe(d.cfg, d.state, c)
    requires p in d.graph[k].parents && p in d.graph
    ensures c.Flip() !in AC(d.graph, p)
  {
    hide WellFormed, Legal, Ballot, NoOpenConflicts, Dec, Grounded, AC, Anc, Open, PC, NextCount, OppositesRejected,
         Reach, Active;
    var g, D, o := d.graph, DecidedIn(d.graph, d.state), c.Flip();
    if o in AC(g, p) {
      LegalSearch(d, k, true, order);
      OppositeOpen(d, k, order, c);
      OpenInOpenAll(g, D, g[k].parents, p);
      forall w | w in AncEq(g, p) && o in AC(g, w)
        ensures !Accepted(d.state, Unity(w))
      {
        AncEqOfParent(g, k, p);
        UnityReached(g, o, w);
        assert Strikes(d.cfg, g, d.state, c, Unity(w));
      }
      var z := CommitterMet(g, d.state, p, o);
      assert Faithful(g, d.state, z);
      DecidedCases(d.state, o);
      CommittedWalked(d, k, order, p, z, o);
    }
  }

  lemma CommittedWalked(d: Dag, k: VertexHash, order: seq<VertexHash>, p: VertexHash, z: VertexHash, o: Constraint)
    requires WellFormed(d) && k in d.pending && Legal(d, Vote(k, true, order)) && k in d.graph && Grounded(d.graph)
    requires p in d.graph[k].parents && p in d.graph
    requires z in d.graph && z in Open(d.graph, DecidedIn(d.graph, d.state), p)
    requires Undecided(d.state, Unity(z)) && Undecided(d.state, o) && o in PC(d.graph[z].parents)
    ensures o in Ballot(d, k, true, order)
  {
    hide WellFormed, Legal, Ballot, Dec, Grounded, Open, PC, Active;
    RootedGraph(d);
    BallotContent(d, k, true, order, o);
    OpenInOpenAll(d.graph, DecidedIn(d.graph, d.state), d.graph[k].parents, p);
    ActiveComplete(d.graph, DecidedIn(d.graph, d.state), d.graph[k].parents, z);
  }

  /** Nor has `k`, unless it was rejected before. */
  lemma NotAbove(d: Dag, k: VertexHash, order: seq<VertexHash>, c: Constraint, y: VertexHash)
    requires WellFormed(d) && k in d.pending && Unspoilt(d, k, order) && k in d.graph
    requires c in Ballot(d, k, true, order) && !c.IsUnity() && Ripe(d.cfg, d.state, c)
    requires y in AncEq(d.graph, k) && c.Flip() in AC(d.graph, y)
    ensures y == k && Rejected(d.state, Unity(k))
  {
    hide WellFormed, Legal, Ballot, NoOpenConflicts, Dec, Grounded, AC, Anc, PC, NextCount, OppositesRejected, Spares,
         Committed, Active;
    var g, o := d.graph, c.Flip();
    if y != k {
      var p := AncViaParent(g, y, k);
      ACMonotone(g, y, p);
      NotAboveParent(d, k, order, c, p);
    } else {
      ACViaParent(g, k, o);
      if p :| p in g[k].parents && p in g && o in AC(g, p) { NotAboveParent(d, k, order, c, p); }
      OppositeOpen(d, k, order, c);
      BallotContent(d, k, true, order, o);
      DecidedCases(d.state, o);
      assert Faithful(g, d.state, k);
    }
  }

  /** A vertex below the opposite of an accepted pair is rejected by the vote. */
  lemma BelowIsRejected(d: Dag, k: VertexHash, order: seq<VertexHash>, c: Constraint, x: VertexHash)
    requires WellFormed(d) && k in d.pending && Unspoilt(d, k, order) && x in d.graph && k in d.graph
    requires KeepsDecisions(d.state, RecordVote(d, k, true, order).state)
    requires c in Ballot(d, k, true, order) && !c.IsUnity() && Ripe(d.cfg, d.state, c) && c.Flip() in AC(d.graph, x)
    ensures Rejected(RecordVote(d, k, true, order).state, Unity(x))
  {
    hide WellFormed, Legal, Ballot, NoOpenConflicts, Dec, AC, Anc, NextCount, OppositesRejected, Spares, Faithful,
         RecordVote, Reach;
    if Unity(x) in Ballot(d, k, true, order) {
      BallotBacked(d, k, true, order, Unity(x));
      UnityOfAncestor(d.graph, x, k);
      NotAbove(d, k, order, c, x);
    } else {
      DecisionAfter(d, k, order, Unity(x));
      ReachedThrough(d.graph, c.Flip(), x);
      assert Strikes(d.cfg, d.graph, d.state, c, Unity(x));
    }
  }

  lemma ReachedThrough(g: Graph, o: Constraint, x: VertexHash)
    requires Grounded(g) && !o.IsUnity() && x in g
    ensures Unity(x) in Reach(g, o) <==> o in AC(g, x)
  {
    hide Reach, AC;
    UnityReached(g, o, x);
  }

  lemma FaithfulKept(d: Dag, k: VertexHash, order: seq<VertexHash>, x: VertexHash)
    requires WellFormed(d) && k in d.pending && Unspoilt(d, k, order) && x in d.graph && k in d.graph
    requires KeepsDecisions(d.state, RecordVote(d, k, true, order).state)
    ensures Faithful(d.graph, RecordVote(d, k, true, order).state, x)
  {
    hide WellFormed, Legal, Ballot, NoOpenConflicts, Dec, AC, PC, ConstraintParents, NextCount, OppositesRejected,
         Spares, RecordVote;
    var g, st' := d.graph, RecordVote(d, k, true, order).state;
    assert Faithful(g, d.state, x);
    if p :| p in PC(g[x].parents) && Rejected(st', p) && !Rejected(d.state, p) {
      BallotWalk(d, k, order);
      RejectedIsStruck(d.cfg, d.graph, Awarded(d, k, true), Ballot(d, k, true, order), p);
      var c :| c in Ballot(d, k, true, order) && Strikes(d.cfg, g, d.state, c, p);
      OwnParents(g, x);
      ParentStruckToo(g, c.Flip(), x, p);
      ReachedThrough(g, c.Flip(), x);
      BelowIsRejected(d, k, order, c, x);
    }
    if Rejected(st', Unity(x)) && !Rejected(d.state, Unity(x)) {
      BallotWalk(d, k, order);
      RejectedIsStruck(d.cfg, d.graph, Awarded(d, k, true), Ballot(d, k, true, order), Unity(x));
      var c :| c in Ballot(d, k, true, order) && Strikes(d.cfg, g, d.state, c, Unity(x));
      ReachedThrough(g, c.Flip(), x);
      ACViaParent(g, x, c.Flip());
      if c.Flip() in PC(g[x].parents) {
        OppositeOpen(d, k, order, c);
        DecisionAfter(d, k, order, c.Flip());
        assert c.Flip() in Reach(g, c.Flip()) && Strikes(d.cfg, g, d.state, c, c.Flip());
      } else {
        var q :| q in g[x].parents && q in g && c.Flip() in AC(g, q);
        BelowIsRejected(d, k, order, c, q);
        assert Unity(q) in PC(g[x].parents);
      }
    }
  }

  lemma FaithfulInsert(d: Dag, v: Vertex, x: VertexHash)
    requires WellFormed(d) && Joins(d.graph, v) && x in d.graph && Faithful(d.graph, d.state, x)
    ensures x in With(d.graph, v) && Faithful(With(d.graph, v), InsertState(d.graph, d.state, v), x)
  {
    hide WellFormed, StateOk, InsertState, Joins, PC, Dec, Grounded;
    GraphOf(d);
    KeysOfReg(d.graph, d.state);
    UnityKey(d, x);
    InsertKeeps(d.graph, d.state, v, Unity(x));
    forall p | p in PC(d.graph[x].parents)
      ensures Dec(InsertState(d.graph, d.state, v), p) == Dec(d.state, p)
    {
      RegMember(d.graph, x, p);
      InsertKeeps(d.graph, d.state, v, p);
    }
    NotYetIn(d.graph, v);
  }

  lemma FaithfulSame(g: Graph, st: State, st': State, x: VertexHash)
    requires x in g && Faithful(g, st, x) && forall e :: Dec(st', e) == Dec(st, e)
    ensures Faithful(g, st', x)
  {
    hide Dec, PC;
  }

  lemma SparesIfKept(cfg: Config, v0: Vertex, evs: seq<Event>, h: VertexHash, order: seq<VertexHash>)
    requires cfg.Valid() && IsGenesis(cfg, v0) && IsRun(cfg, v0, evs)
    requires h in Run(cfg, v0, evs).pending && Legal(Run(cfg, v0, evs), Vote(h, true, order))
    requires KeepsDecisions(Run(cfg, v0, evs).state, Apply(Run(cfg, v0, evs), Vote(h, true, order)).state)
    ensures Grounded(Run(cfg, v0, evs).graph) && Spares(Run(cfg, v0, evs), h, order)
  {
    hide WellFormed, Legal, Run, IsRun, Apply, Ballot, Struck, Dec, Grounded;
    var d := Run(cfg, v0, evs);
    GraphOf(d);
    forall e | Accepted(d.state, e) && e != Unity(h)
      ensures !Struck(d.cfg, d.graph, d.state, Ballot(d, h, true, order), e)
    {
      AcceptedOverwritten(cfg, v0, evs, h, order, e);
    }
  }

  lemma FaithfulEvent(cfg: Config, v0: Vertex, evs: seq<Event>, e: Event, x: VertexHash)
    requires cfg.Valid() && IsGenesis(cfg, v0) && IsRun(cfg, v0, evs) && Legal(Run(cfg, v0, evs), e)
    requires KeepsDecisions(Run(cfg, v0, evs).state, Apply(Run(cfg, v0, evs), e).state)
    requires var d := Run(cfg, v0, evs); forall y :: y in d.graph ==> Faithful(d.graph, d.state, y)
    requires x in Apply(Run(cfg, v0, evs), e).graph
    ensures Faithful(Apply(Run(cfg, v0, evs), e).graph, Apply(Run(cfg, v0, evs), e).state, x)
  {
    hide WellFormed, Legal, Run, IsRun, Apply, KeepsDecisions, Insert, RecordVote, Passes, Joins, Grounded,
         InsertState, Dec, Spares, NoOpenConflicts, OppositesRejected, CountsSupported, AcceptancesBacked;
    var d := Run(cfg, v0, evs);
    GraphOf(d);
    match e
    case Submit(v) =>
      SubmitCases(d, v);
      if Passes(d, v) {
        InsertParts(d, v);
      if x in d.graph { FaithfulInsert(d, v, x); } else { InsertUnity(d.graph, d.state, v); }
      }
    case Vote(h, preferred, order) =>
      VoteCases(d, h, preferred, order);
      if h in d.pending && preferred {
        EveryRunSafe(cfg, v0, evs);
        SparesIfKept(cfg, v0, evs, h, order);
        PendingVertex(d, h);
        FaithfulKept(d, h, order, x);
      } else if h in d.pending {
      RecordIsVoteAll(d, h, false, order);
      VoteAllAgainst(d.cfg, d.graph, d.state, Ballot(d, h, false, order));
        FaithfulSame(d.graph, d.state, RecordVote(d, h, preferred, order).state, x);
      }
  }

  /** While no decision has been overwritten, a vertex is rejected exactly along with something
      it commits to. */
  lemma {:induction false} KeepingRunFaithful(cfg: Config, v0: Vertex, evs: seq<Event>, x: VertexHash)
    requires cfg.Valid() && IsGenesis(cfg, v0) && IsRun(cfg, v0, evs) && KeepingRun(cfg, v0, evs)
    requires x in Run(cfg, v0, evs).graph
    ensures Faithful(Run(cfg, v0, evs).graph, Run(cfg, v0, evs).state, x)
    decreases |evs|
  {
    hide WellFormed, Legal, Next, First, KeepsDecisions, Apply;
    if evs == [] {
      RunOfNothing(cfg, v0);
      FirstState(cfg, v0, Unity(x));
    } else {
      var before, e := evs[..|evs| - 1], evs[|evs| - 1];
      RunStep(cfg, v0, evs);
      var d := Run(cfg, v0, before);
      forall y | y in d.graph ensures Faithful(d.graph, d.state, y) { KeepingRunFaithful(cfg, v0, before, y); }
      NextIsApply(d, e);
      FaithfulEvent(cfg, v0, before, e, x);
    }
  }

  /** While no decision has been overwritten, a positive vote accepts its own vertex although it
      is rejected exactly when the counter of the vertex comes to the acceptance threshold. */
  lemma RejectedVertexRipe(cfg: Config, v0: Vertex, evs: seq<Event>, h: VertexHash, order: seq<VertexHash>)
    requires cfg.Valid() && IsGenesis(cfg, v0) && IsRun(cfg, v0, evs) && KeepingRun(cfg, v0, evs)
    requires h in Run(cfg, v0, evs).pending && Legal(Run(cfg, v0, evs), Vote(h, true, order))
    requires Rejected(Run(cfg, v0, evs).state, Unity(h))
    ensures var d := Run(cfg, v0, evs); var st := Apply(d, Vote(h, true, order)).state;
            if Count(d.state, Unity(h)) + 1 >= cfg.threshAccepted then Accepted(st, Unity(h))
            else Rejected(st, Unity(h))
  {
    hide WellFormed, Legal, Run, IsRun, Apply, RecordVote, Ballot, Dec, Grounded, ConstraintParents, PC, NextCount,
         Count;
    var d := Run(cfg, v0, evs);
    GraphOf(d);
    PendingVertex(d, h);
    KeepingRunFaithful(cfg, v0, evs, h);
    var p :| p in PC(d.graph[h].parents) && Rejected(d.state, p);
    OwnParents(d.graph, h);
    OwnNextCount(d, h);
    RejectedStays(cfg, v0, evs, h, order, p);
    VoteCases(d, h, true, order);
    DecidedCases(RecordVote(d, h, true, order).state, p);
    RejectedVertexAccepted(d, h, order);
  }

  // ----- the runs in which nothing is overwritten -----

  /** A positive vote overwrites no decision exactly when it spares what is accepted and its own
      vertex is not both rejected and one vote from acceptance. */
  lemma VoteOverwritesNothing(cfg: Config, v0: Vertex, evs: seq<Event>, h: VertexHash, order: seq<VertexHash>)
    requires cfg.Valid() && IsGenesis(cfg, v0) && IsRun(cfg, v0, evs) && KeepingRun(cfg, v0, evs)
    requires h in Run(cfg, v0, evs).pending && Legal(Run(cfg, v0, evs), Vote(h, true, order))
    ensures Grounded(Run(cfg, v0, evs).graph)
    ensures var d := Run(cfg, v0, evs);
            KeepsDecisions(d.state, Apply(d, Vote(h, true, order)).state) <==> Harmless(d, Vote(h, true, order))
  {
    hide WellFormed, Legal, Run, IsRun, Apply, Ballot, Struck, Dec, Grounded, NextCount, Count, KeepingRun;
    var d, st := Run(cfg, v0, evs), Apply(Run(cfg, v0, evs), Vote(h, true, order)).state;
    GraphOf(d);
    OwnNextCount(d, h);
    if KeepsDecisions(d.state, st) { SparesIfKept(cfg, v0, evs, h, order); }
    if Rejected(d.state, Unity(h)) {
      RejectedVertexRipe(cfg, v0, evs, h, order);
      DecidedCases(st, Unity(h));
    }
    if Harmless(d, Vote(h, true, order)) {
      forall e | !Undecided(d.state, e)
        ensures Dec(st, e) == Dec(d.state, e)
      {
        HarmlessKeeps(cfg, v0, evs, h, order, e);
      }
    }
  }

  lemma HarmlessKeeps(cfg: Config, v0: Vertex, evs: seq<Event>, h: VertexHash, order: seq<VertexHash>, e: Constraint)
    requires cfg.Valid() && IsGenesis(cfg, v0) && IsRun(cfg, v0, evs) && KeepingRun(cfg, v0, evs)
    requires h in Run(cfg, v0, evs).pending && Legal(Run(cfg, v0, evs), Vote(h, true, order))
    requires Grounded(Run(cfg, v0, evs).graph) && Harmless(Run(cfg, v0, evs), Vote(h, true, order))
    requires !Undecided(Run(cfg, v0, evs).state, e)
    ensures Dec(Apply(Run(cfg, v0, evs), Vote(h, true, order)).state, e) == Dec(Run(cfg, v0, evs).state, e)
  {
    hide WellFormed, Legal, Run, IsRun, Apply, Ballot, Struck, Dec, Grounded, NextCount, Count, KeepingRun, Admits,
         RecordVote;
    var d := Run(cfg, v0, evs);
    OwnNextCount(d, h);
    DecidedCases(d.state, e);
    if e == Unity(h) && Accepted(d.state, e) {
      AcceptedAdmitted(cfg, v0, evs, h, order);
      OwnDecision(d, h, order);
      VoteCases(d, h, true, order);
    } else if e == Unity(h) {
      RejectedVertexRipe(cfg, v0, evs, h, order);
    } else if Accepted(d.state, e) {
      AcceptedOverwritten(cfg, v0, evs, h, order, e);
    } else {
      RejectedStays(cfg, v0, evs, h, order, e);
    }
  }

  /** An event which overwrites nothing, by what can be seen beforehand. */
  ghost predicate Harmless(d: Dag, e: Event)
    requires Grounded(d.graph)
  {
    match e
    case Submit(_) => true
    case Vote(h, preferred, order) =>
      h in d.pending && preferred ==>
        Spares(d, h, order) && !(Rejected(d.state, Unity(h)) && Ripe(d.cfg, d.state, Unity(h)))
  }

  ghost predicate HarmlessRun(cfg: Config, v0: Vertex, evs: seq<Event>)
    requires cfg.Valid() && IsGenesis(cfg, v0) && IsRun(cfg, v0, evs)
  {
    evs == [] ||
    var before := Run(cfg, v0, evs[..|evs| - 1]);
    HarmlessRun(cfg, v0, evs[..|evs| - 1]) && Grounded(before.graph) && Harmless(before, evs[|evs| - 1])
  }

  /** No event of the run overwrites a decision. */
  ghost predicate KeepingRun(cfg: Config, v0: Vertex, evs: seq<Event>)
    requires cfg.Valid() && IsGenesis(cfg, v0) && IsRun(cfg, v0, evs)
  {
    evs == [] ||
    (KeepingRun(cfg, v0, evs[..|evs| - 1]) &&
     KeepsDecisions(Run(cfg, v0, evs[..|evs| - 1]).state, Run(cfg, v0, evs).state))
  }

  lemma EventOverwritesNothing(cfg: Config, v0: Vertex, evs: seq<Event>, e: Event)
    requires cfg.Valid() && IsGenesis(cfg, v0) && IsRun(cfg, v0, evs) && Legal(Run(cfg, v0, evs), e)
    requires KeepingRun(cfg, v0, evs)
    ensures var d := Run(cfg, v0, evs);
            Grounded(d.graph) && (KeepsDecisions(d.state, Apply(d, e).state) <==> Harmless(d, e))
  {
    hide WellFormed, Legal, Run, IsRun, Apply, RecordVote, Dec, Grounded, Spares, Insert, Passes, Joins, KeepingRun,
         Ripe;
    var d := Run(cfg, v0, evs);
    GraphOf(d);
    match e
    case Submit(v) =>
      SubmitCases(d, v);
      KeepsRefl(d.state);
      if Passes(d, v) {
        InsertParts(d, v);
        InsertKeepsDecisions(d, v);
      }
    case Vote(h, preferred, order) =>
      VoteCases(d, h, preferred, order);
      KeepsRefl(d.state);
      if h in d.pending && preferred { VoteOverwritesNothing(cfg, v0, evs, h, order); }
      if h in d.pending && !preferred {
        RecordIsVoteAll(d, h, false, order);
        VoteAllAgainst(d.cfg, d.graph, d.state, Ballot(d, h, false, order));
      }
  }

  /** Over whole runs: no event overwrites a decision if and only if every positive vote spares
      what is accepted and is on no vertex both rejected and one vote from acceptance. */
  lemma {:induction false} RunOverwritesNothing(cfg: Config, v0: Vertex, evs: seq<Event>)
    requires cfg.Valid() && IsGenesis(cfg, v0) && IsRun(cfg, v0, evs)
    ensures KeepingRun(cfg, v0, evs) <==> HarmlessRun(cfg, v0, evs)
    decreases |evs|
  {
    hide WellFormed, Legal, First, Next, Run, IsRun, Apply, Harmless, KeepsDecisions, Grounded;
    if evs != [] {
      RunStep(cfg, v0, evs);
      RunOverwritesNothing(cfg, v0, evs[..|evs| - 1]);
      if KeepingRun(cfg, v0, evs[..|evs| - 1]) {
        EventOverwritesNothing(cfg, v0, evs[..|evs| - 1], evs[|evs| - 1]);
        NextIsApply(Run(cfg, v0, evs[..|evs| - 1]), evs[|evs| - 1]);
      }
    }
  }

  /** In such a run whatever is decided at any moment is decided the same way ever after. */
  lemma {:induction false} KeepingRunIsFinal(cfg: Config, v0: Vertex, evs: seq<Event>, n: nat)
    requires cfg.Valid() && IsGenesis(cfg, v0) && IsRun(cfg, v0, evs) && KeepingRun(cfg, v0, evs) && n <= |evs|
    ensures IsRun(cfg, v0, evs[..n]) && KeepsDecisions(Run(cfg, v0, evs[..n]).state, Run(cfg, v0, evs).state)
    decreases |evs|
  {
    hide WellFormed, Legal, First, Next, Run, IsRun, KeepsDecisions;
    PrefixIsRun(cfg, v0, evs, n);
    if n == |evs| {
      assert evs[..n] == evs;
      KeepsRefl(Run(cfg, v0, evs).state);
    } else {
      var before := evs[..|evs| - 1];
      RunStep(cfg, v0, evs);
      assert before[..n] == evs[..n];
      KeepingRunIsFinal(cfg, v0, before, n);
      KeepsTrans(Run(cfg, v0, evs[..n]).state, Run(cfg, v0, before).state, Run(cfg, v0, evs).state);
    }
  }

  lemma {:induction false} VoteFreeKeeps(cfg: Config, v0: Vertex, evs: seq<Event>)
    requires cfg.Valid() && IsGenesis(cfg, v0) && IsRun(cfg, v0, evs) && forall i :: 0 <= i < |evs| ==> evs[i].Submit?
    ensures KeepingRun(cfg, v0, evs)
    decreases |evs|
  {
    hide WellFormed, Legal, First, Next, Run, IsRun, Apply, KeepsDecisions, Grounded;
    if evs != [] {
      RunStep(cfg, v0, evs);
      VoteFreeKeeps(cfg, v0, evs[..|evs| - 1]);
      EventOverwritesNothing(cfg, v0, evs[..|evs| - 1], evs[|evs| - 1]);
      NextIsApply(Run(cfg, v0, evs[..|evs| - 1]), evs[|evs| - 1]);
    }
  }
}

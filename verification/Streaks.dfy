/**
 What the counters count (src/consensus/dag.rs: `record_query_result`): the positive votes on a
 constraint since the last positive vote on its opposite or the last negative vote on itself.
 */
module Streaks {
  import opened Vertices
  import opened Ancestry
  import opened DagTypes
  import opened Voting
  import opened Insertion
  import opened Dags
  import opened Steps
  import opened Runs
  import opened Ballots
  import opened Safety
  import opened Cascade

  /** The streak of `c` after a vote which walks `cs`, given the streak before. */
  ghost function StreakAfter(cs: seq<Constraint>, preferred: bool, c: Constraint, streak: nat): nat {
    if c in cs then (if preferred then streak + 1 else 0)
    else if preferred && c.Flip() in cs then 0
    else streak
  }

  /** The number of positive votes on `c` since the latest positive vote on its opposite or
      negative vote on itself. */
  ghost function Streak(cfg: Config, v0: Vertex, evs: seq<Event>, c: Constraint): nat
    requires cfg.Valid() && IsGenesis(cfg, v0) && IsRun(cfg, v0, evs)
  {
    if evs == [] then 0
    else
      var before, last := evs[..|evs| - 1], evs[|evs| - 1];
      var d, streak := Run(cfg, v0, before), Streak(cfg, v0, before, c);
      match last
      case Submit(_) => streak
      case Vote(h, preferred, order) =>
        if h in d.pending then StreakAfter(Ballot(d, h, preferred, order), preferred, c, streak) else streak
  }

  /** The conflict set of `c` knows the streak of `c`. */
  ghost predicate InStep(st: State, c: Constraint, streak: nat) {
    if c.Key() in st && st[c.Key()].last == c then Count(st, c) == streak else streak == 0
  }

  lemma OneVote(cfg: Config, g: Graph, st: State, e: Constraint, preferred: bool, c: Constraint, streak: nat)
    requires Grounded(g) && StateOk(g, st) && e.Key() in st && InStep(st, c, streak)
    ensures InStep(VoteOn(cfg, g, st, e, preferred), c, StreakAfter([e], preferred, c, streak))
    ensures preferred && e == c ==> VoteOn(cfg, g, st, e, preferred)[c.Key()].last == c
  {
    hide Grounded, StateOk, VoteFor;
    KeyIdentifiesConflictSet(e, c);
    KeysOfReg(g, st);
    if preferred {
      VoteForFacts(cfg, g, st, e, c);
      if c.Key() in st { VoteForLast(cfg, g, st, e, c.Key()); }
    }
  }

  /** Neither `c` twice nor `c` together with its opposite. */
  ghost predicate OnceAtMost(cs: seq<Constraint>, c: Constraint) {
    Distinct(cs) && (c in cs && !c.IsUnity() ==> c.Flip() !in cs)
  }

  lemma OnceFacts(cs: seq<Constraint>, c: Constraint)
    requires OnceAtMost(cs, c) && c in cs
    ensures var rest, e := cs[..|cs| - 1], cs[|cs| - 1];
            if e == c then forall x :: x in rest ==> x.Key() != c.Key()
            else c in rest && OnceAtMost(rest, c) && e.Key() != c.Key()
  {
    var rest, e := cs[..|cs| - 1], cs[|cs| - 1];
    assert cs == rest + [e];
    assert c.IsUnity() ==> c.Flip() == c;
    forall x: Constraint ensures x.Key() == c.Key() <==> x == c || x == c.Flip() { KeyIdentifiesConflictSet(x, c); }
  }

  lemma StreakOneMore(rest: seq<Constraint>, e: Constraint, preferred: bool, c: Constraint, streak: nat)
    requires OnceAtMost(rest + [e], c)
    ensures StreakAfter(rest + [e], preferred, c, streak) ==
        StreakAfter([e], preferred, c, StreakAfter(rest, preferred, c, streak))
    ensures OnceAtMost(rest, c)
  {
    var cs := rest + [e];
    assert cs[..|rest|] == rest && cs[|rest|] == e;
    assert e !in rest;
    assert forall x :: x in cs <==> x in rest || x == e;
    assert c.IsUnity() ==> c.Flip() == c;
  }

  lemma {:induction false} AllVotes(cfg: Config, g: Graph, st: State, cs: seq<Constraint>, preferred: bool,
                                    c: Constraint, streak: nat)
    requires Grounded(g) && StateOk(g, st) && HaveKeys(st, cs) && OnceAtMost(cs, c) && InStep(st, c, streak)
    ensures InStep(VoteAll(cfg, g, st, cs, preferred), c, StreakAfter(cs, preferred, c, streak))
    ensures preferred && c in cs ==>
              c.Key() in VoteAll(cfg, g, st, cs, preferred) && VoteAll(cfg, g, st, cs, preferred)[c.Key()].last == c
  {
    hide StateOk, InStep, OnceAtMost;
    if cs == [] {
      assert StreakAfter([], preferred, c, streak) == streak;
    } else {
      var rest, e := cs[..|cs| - 1], cs[|cs| - 1];
      assert cs == rest + [e];
      StreakOneMore(rest, e, preferred, c, streak);
      AllVotes(cfg, g, st, rest, preferred, c, streak);
      VoteAllStateOk(cfg, g, st, rest, preferred);
      var mid := VoteAll(cfg, g, st, rest, preferred);
      OneVote(cfg, g, mid, e, preferred, c, StreakAfter(rest, preferred, c, streak));
      VoteAllStateOk(cfg, g, st, cs, preferred);
      if preferred && c in rest {
        SameLast(cfg, g, mid, cs, e, c);
      }
    }
  }

  lemma SameLast(cfg: Config, g: Graph, st: State, cs: seq<Constraint>, e: Constraint, c: Constraint)
    requires Grounded(g) && StateOk(g, st) && e.Key() in st && c.Key() in st && OnceAtMost(cs, c)
    requires cs != [] && cs[|cs| - 1] == e && c in cs[..|cs| - 1]
    ensures c.Key() in VoteOn(cfg, g, st, e, true) && VoteOn(cfg, g, st, e, true)[c.Key()].last == st[c.Key()].last
  {
    hide Grounded, StateOk, VoteFor;
    VoteForLast(cfg, g, st, e, c.Key());
    KeyIdentifiesConflictSet(e, c);
    var i :| 0 <= i < |cs| - 1 && cs[i] == c;
  }

  // ----- events -----

  lemma InsertInStep(d: Dag, v: Vertex, c: Constraint, streak: nat)
    requires WellFormed(d) && Joins(d.graph, v) && InStep(d.state, c, streak)
    ensures InStep(InsertState(d.graph, d.state, v), c, streak)
  {
    hide WellFormed, Grounded, StateOk, Joins, InsertState;
    GraphOf(d);
    if c.Key() in d.state {
      InsertKeeps(d.graph, d.state, v, c);
    } else {
      NewConstraint(d.graph, d.state, v, c);
    }
  }

  lemma RecordInStep(d: Dag, h: VertexHash, preferred: bool, order: seq<VertexHash>, c: Constraint, streak: nat)
    requires WellFormed(d) && h in d.pending && Legal(d, Vote(h, preferred, order)) && InStep(d.state, c, streak)
    requires OnceAtMost(Ballot(d, h, preferred, order), c)
    ensures var st := RecordVote(d, h, preferred, order).state;
            && InStep(st, c, StreakAfter(Ballot(d, h, preferred, order), preferred, c, streak))
            && (preferred && c in Ballot(d, h, preferred, order) ==> c.Key() in st && st[c.Key()].last == c)
  {
    hide WellFormed, Legal, StateOk, Grounded, Ballot, VoteAll, RecordVote, OnceAtMost, StreakAfter, Award, HaveKeys;
    RecordIsVoteAll(d, h, preferred, order);
    AwardedFacts(d, h, preferred);
    if c.Key() in d.state { AwardedSameVotes(d.state, Unity(h), c.Key()); }
    AllVotes(d.cfg, d.graph, Awarded(d, h, preferred), Ballot(d, h, preferred, order), preferred, c, streak);
  }

  lemma BallotOnce(cfg: Config, v0: Vertex, evs: seq<Event>, h: VertexHash, preferred: bool, order: seq<VertexHash>,
                   c: Constraint)
    requires cfg.Valid() && IsGenesis(cfg, v0) && IsRun(cfg, v0, evs)
    requires h in Run(cfg, v0, evs).pending && Legal(Run(cfg, v0, evs), Vote(h, preferred, order))
    ensures OnceAtMost(Ballot(Run(cfg, v0, evs), h, preferred, order), c)
  {
    hide WellFormed, Legal, IsRun, Run, Ballot, Distinct;
    BallotDistinct(Run(cfg, v0, evs), h, preferred, order);
    NoVoteTouchesBothOrders(cfg, v0, evs, h, preferred, order);
  }

  lemma {:induction false} RunInStep(cfg: Config, v0: Vertex, evs: seq<Event>, c: Constraint)
    requires cfg.Valid() && IsGenesis(cfg, v0) && IsRun(cfg, v0, evs)
    ensures InStep(Run(cfg, v0, evs).state, c, Streak(cfg, v0, evs, c))
    decreases |evs|
  {
    hide WellFormed, Legal, Next, First, Run, IsRun, Ballot, StreakAfter, Apply, RecordVote, Passes, Joins, Insert,
         OnceAtMost;
    if evs == [] {
      RunOfNothing(cfg, v0);
      FirstState(cfg, v0, c);
    } else {
      var before, e := evs[..|evs| - 1], evs[|evs| - 1];
      RunStep(cfg, v0, evs);
      RunInStep(cfg, v0, before, c);
      var d := Run(cfg, v0, before);
      NextIsApply(d, e);
      match e
      case Submit(v) =>
        GraphOf(d);
        SubmitCases(d, v);
        if Passes(d, v) {
          InsertInStep(d, v, c, Streak(cfg, v0, before, c));
          InsertParts(d, v);
        }
      case Vote(h, preferred, order) =>
        VoteCases(d, h, preferred, order);
        if h in d.pending {
          BallotOnce(cfg, v0, before, h, preferred, order, c);
          RecordInStep(d, h, preferred, order, c, Streak(cfg, v0, before, c));
        }
    }
  }

  // ----- main results -----

  /** In every run the counter of the constraint last voted for in its conflict set is the number
      of positive votes on it since the latest positive vote on its opposite or negative vote on
      itself; the other order of the pair has no streak. */
  lemma CounterIsStreak(cfg: Config, v0: Vertex, evs: seq<Event>, c: Constraint)
    requires cfg.Valid() && IsGenesis(cfg, v0) && IsRun(cfg, v0, evs) && c.Key() in Run(cfg, v0, evs).state
    ensures var s := Run(cfg, v0, evs).state[c.Key()];
            if s.last == c then Count(Run(cfg, v0, evs).state, c) == Streak(cfg, v0, evs, c)
              else Streak(cfg, v0, evs, c) == 0
  {
    hide Run, IsRun, Streak, Count;
    RunInStep(cfg, v0, evs, c);
  }

  /** A constraint is accepted only by a positive vote which walks it, at the end of an
      uninterrupted streak of positive votes as long as its threshold. */
  lemma AcceptanceNeedsStreak(cfg: Config, v0: Vertex, evs: seq<Event>, c: Constraint)
    requires cfg.Valid() && IsGenesis(cfg, v0) && IsRun(cfg, v0, evs) && evs != []
    requires IsRun(cfg, v0, evs[..|evs| - 1])
    requires Accepted(Run(cfg, v0, evs).state, c) && !Accepted(Run(cfg, v0, evs[..|evs| - 1]).state, c)
    ensures var d, last := Run(cfg, v0, evs[..|evs| - 1]), evs[|evs| - 1];
            last.Vote? && last.preferred && last.h in d.pending && c in Ballot(d, last.h, true, last.order)
    ensures Streak(cfg, v0, evs, c) >= Quorum(cfg, c)
  {
    hide WellFormed, Legal, Next, First, Run, IsRun, Ballot, Apply, RecordVote, Passes, Joins, Insert, Accepted,
         Streak, Quorum, Count, OnceAtMost;
    var d, e := Run(cfg, v0, evs[..|evs| - 1]), evs[|evs| - 1];
    RunStep(cfg, v0, evs);
    NextIsApply(d, e);
    RunInStep(cfg, v0, evs, c);
    RunInStep(cfg, v0, evs[..|evs| - 1], c);
    match e
    case Submit(v) => SubmitAcceptsNothing(d, v, c);
    case Vote(h, preferred, order) =>
      VoteCases(d, h, preferred, order);
      BallotOnce(cfg, v0, evs[..|evs| - 1], h, preferred, order, c);
      RecordInStep(d, h, preferred, order, c, Streak(cfg, v0, evs[..|evs| - 1], c));
      RecordAcceptance(d, h, preferred, order, c);
      AcceptedWalked(d, h, preferred, order, c);
  }

  lemma SubmitAcceptsNothing(d: Dag, v: Vertex, c: Constraint)
    requires WellFormed(d) && Accepted(Apply(d, Submit(v)).state, c)
    ensures Accepted(d.state, c)
  {
    hide WellFormed, Apply, Passes, Joins, Accepted, InsertState, StateOk, Grounded;
    GraphOf(d);
    SubmitCases(d, v);
    if Passes(d, v) { InsertParts(d, v); InsertAcceptsNothing(d.graph, d.state, v, c); }
  }

  lemma AcceptedWalked(d: Dag, h: VertexHash, preferred: bool, order: seq<VertexHash>, c: Constraint)
    requires WellFormed(d) && h in d.pending && Legal(d, Vote(h, preferred, order))
    requires Accepted(RecordVote(d, h, preferred, order).state, c) && !Accepted(d.state, c)
    ensures preferred && c in Ballot(d, h, preferred, order)
  {
    hide WellFormed, Legal, RecordVote, VoteAll, StateOk, Grounded, Ballot, Awarded, Dec, HaveKeys, Distinct;
    RecordIsVoteAll(d, h, preferred, order);
    AwardedDec(d, h, preferred);
    if preferred {
      VoteAllAccepts(d.cfg, d.graph, Awarded(d, h, preferred), Ballot(d, h, preferred, order), c);
    } else {
      VoteAllAgainst(d.cfg, d.graph, Awarded(d, h, preferred), Ballot(d, h, preferred, order));
    }
  }
}

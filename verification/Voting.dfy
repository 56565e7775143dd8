/**
 The Avalanche state of the constraint graph and the effect of one vote on one constraint
 (src/consensus/dag.rs: `record_query_result`, `progeny_with_chits`, `reject_progeny`).

 The effects are specified on the vertex graph: confidence is the number of recorded vertices
 whose ancestry commits to a constraint, and a rejection hits a constraint and everything below
 it.  That the code's recursions over `ConflictSet.children` compute just that is proved here.
 */
module Voting {
  import opened Wrappers
  import opened Vertices
  import opened Ancestry
  import opened DagTypes

  // ----- the shape of the state -----

  /** Every registered constraint has its conflict set, and every conflict set holds entries for
      both orders, the constraint children induced by the graph, and for a unity constraint its
      constraint parents. */
  ghost predicate StateOk(g: Graph, st: State) {
    && (forall c :: c in Reg(g) ==> c.Key() in st)
    && (forall k :: k in st ==> ConflictSetOk(g, k, st[k]))
  }

  ghost predicate ConflictSetOk(g: Graph, k: ConflictSetKey, s: ConflictSet) {
    && (exists c :: c in Reg(g) && c.Key() == k)
    && s.last.Key() == k && s.preferred.Key() == k
    && (forall c: Constraint :: c.Key() == k ==> EntriesOk(g, s, c))
    && (forall c :: c in s.children ==> c.Key() == k)
  }

  ghost predicate EntriesOk(g: Graph, s: ConflictSet, c: Constraint) {
    && c in s.chit && c in s.confidence && c in s.count && c in s.parents
    && c in s.children && s.children[c] == Kids(g, c)
    && (s.chit[c] ==> c.IsUnity())
    && (c.IsUnity() ==> s.parents[c] == ConstraintParents(g, c))
  }

  /** Changing nothing but counters, preferences and decisions. */
  ghost predicate SameShape(st: State, st': State) {
    && st'.Keys == st.Keys
    && forall k :: k in st ==> SameEntries(k, st[k], st'[k])
  }

  ghost predicate SameEntries(k: ConflictSetKey, s: ConflictSet, s': ConflictSet) {
    && s'.chit == s.chit && s'.parents == s.parents && s'.children == s.children
    && s.count.Keys <= s'.count.Keys && s.confidence.Keys <= s'.confidence.Keys
    && (s'.last == s.last || s'.last.Key() == k) && (s'.preferred == s.preferred || s'.preferred.Key() == k)
  }

  lemma ShapeKeepsStateOk(g: Graph, st: State, st': State)
    requires StateOk(g, st) && SameShape(st, st')
    ensures StateOk(g, st')
  {
    forall k | k in st'
      ensures ConflictSetOk(g, k, st'[k])
    {
      assert ConflictSetOk(g, k, st[k]) && SameEntries(k, st[k], st'[k]);
      forall c: Constraint | c.Key() == k
        ensures EntriesOk(g, st'[k], c)
      {
        assert EntriesOk(g, st[k], c);
      }
    }
  }

  lemma ShapeTrans(st: State, st': State, st'': State)
    requires SameShape(st, st') && SameShape(st', st'')
    ensures SameShape(st, st'')
  {
    forall k | k in st
      ensures SameEntries(k, st[k], st''[k])
    {
      assert SameEntries(k, st[k], st'[k]) && SameEntries(k, st'[k], st''[k]);
    }
  }

  lemma EntryOf(g: Graph, st: State, c: Constraint)
    requires StateOk(g, st) && (c in Reg(g) || c.Key() in st)
    ensures c.Key() in st && EntriesOk(g, st[c.Key()], c)
  {
    assert ConflictSetOk(g, c.Key(), st[c.Key()]);
  }

  lemma KeysOfReg(g: Graph, st: State)
    requires StateOk(g, st)
    ensures forall d :: d in Reg(g) ==> d.Key() in st
  {
  }

  lemma KeyRegistered(g: Graph, st: State, c: Constraint)
    requires StateOk(g, st) && c.Key() in st
    ensures c in Reg(g) || c.Flip() in Reg(g)
  {
    assert ConflictSetOk(g, c.Key(), st[c.Key()]);
    var d :| d in Reg(g) && d.Key() == c.Key();
    KeyIdentifiesConflictSet(c, d);
  }

  function Chit(st: State, c: Constraint): bool {
    c.Key() in st && c in st[c.Key()].chit && st[c.Key()].chit[c]
  }

  function Count(st: State, c: Constraint): nat {
    if c.Key() in st && c in st[c.Key()].count then st[c.Key()].count[c] else 0
  }

  // ----- support -----

  /** Vertex `w` speaks for constraint `c`. */
  ghost predicate Backs(g: Graph, w: VertexHash, c: Constraint)
    requires Grounded(g)
  {
    c == Unity(w) || (w in g && c in AC(g, w))
  }

  /** The positively recorded vertices which speak for `c`. */
  ghost function Supporters(g: Graph, st: State, c: Constraint): set<VertexHash>
    requires Grounded(g)
  {
    set w | w in g && Chit(st, Unity(w)) && Backs(g, w, c)
  }

  /** Every constraint with a chit in the progeny of `c`, itself included. */
  function ProgenyWithChits(ghost g: Graph, st: State, c: Constraint): set<Constraint>
    requires Grounded(g) && StateOk(g, st) && c.Key() in st
    decreases Reach(g, c)
  {
    EntryOf(g, st, c);
    var s := st[c.Key()];
    assert forall d :: d in s.children[c] ==> d.Key() in st && Reach(g, d) < Reach(g, c) by {
      forall d | d in s.children[c] ensures d.Key() in st && Reach(g, d) < Reach(g, c) { ReachOfKid(g, c, d); }
    }
    (set d, e | d in s.children[c] && e in ProgenyWithChits(g, st, d) :: e) + (if s.chit[c] then {c} else {})
  }

  /** The recursion over constraint children finds the unities of exactly the recorded vertices
      which speak for the constraint. */
  lemma {:induction false} ProgenyIsSupport(g: Graph, st: State, c: Constraint, e: Constraint)
    requires Grounded(g) && StateOk(g, st) && c.Key() in st
    ensures e in ProgenyWithChits(g, st, c) <==> e in Reach(g, c) && Chit(st, e)
    decreases Reach(g, c)
  {
    hide Reach, Grounded, StateOk;
    EntryOf(g, st, c);
    KeysOfReg(g, st);
    var s := st[c.Key()];
    forall d | d in s.children[c]
      ensures d.Key() in st && Reach(g, d) < Reach(g, c)
      ensures e in ProgenyWithChits(g, st, d) <==> e in Reach(g, d) && Chit(st, e)
    {
      ReachOfKid(g, c, d);
      ProgenyIsSupport(g, st, d, e);
    }
    ReachUnfolds(g, c);
  }

  lemma UnitiesCount(s: set<VertexHash>)
    ensures |set w | w in s :: Unity(w)| == |s|
  {
    if s != {} {
      var x :| x in s;
      UnitiesCount(s - {x});
      assert (set w | w in s :: Unity(w)) == (set w | w in s - {x} :: Unity(w)) + {Unity(x)};
    }
  }

  lemma SupportMember(g: Graph, st: State, c: Constraint, e: Constraint)
    requires Grounded(g) && StateOk(g, st) && c.Key() in st
    ensures e in ProgenyWithChits(g, st, c) <==> e == Unity(e.left) && e.left in Supporters(g, st, c)
  {
    ProgenyIsSupport(g, st, c, e);
    if Chit(st, e) {
      EntryOf(g, st, e);
      KeyRegistered(g, st, e);
      RegEndpoints(g, e);
      UnityReached(g, c, e.left);
    } else if e == Unity(e.left) {
      assert e.left !in Supporters(g, st, c);
    }
  }

  lemma UnityReached(g: Graph, c: Constraint, w: VertexHash)
    requires Grounded(g)
    ensures Unity(w) in Reach(g, c) <==> Backs(g, w, c)
  {
    if w in g {
      RegMember(g, w, Unity(w));
    }
  }

  /** Confidence: the number of different constraints found by the recursion over the constraint
      graph is the number of recorded vertices that commit to `c`, directly or through an
      ancestor. */
  lemma ConfidenceCountsVertices(g: Graph, st: State, c: Constraint)
    requires Grounded(g) && StateOk(g, st) && c.Key() in st
    ensures forall e :: e in ProgenyWithChits(g, st, c) <==> e == Unity(e.left) && e.left in Supporters(g, st, c)
    ensures |ProgenyWithChits(g, st, c)| == |Supporters(g, st, c)|
  {
    forall e
      ensures e in ProgenyWithChits(g, st, c) <==> e == Unity(e.left) && e.left in Supporters(g, st, c)
    {
      SupportMember(g, st, c, e);
    }
    UnitiesOf(ProgenyWithChits(g, st, c), Supporters(g, st, c));
  }

  lemma UnitiesOf(cs: set<Constraint>, s: set<VertexHash>)
    requires forall e :: e in cs <==> e == Unity(e.left) && e.left in s
    ensures |cs| == |s|
  {
    assert cs == set w | w in s :: Unity(w);
    UnitiesCount(s);
  }

  // ----- rejection -----

  /** Marks all of `S` as rejected. */
  ghost function RejectAll(st: State, S: set<Constraint>): State {
    map k | k in st :: st[k].(decision := st[k].decision + Rejections(S, k))
  }

  ghost function Rejections(S: set<Constraint>, k: ConflictSetKey): map<Constraint, bool> {
    map c | c in S && c.Key() == k :: false
  }

  lemma RejectionsUnion(d: map<Constraint, bool>, S: set<Constraint>, T: set<Constraint>, k: ConflictSetKey)
    ensures d + Rejections(S, k) + Rejections(T, k) == d + Rejections(S + T, k)
  {
  }

  lemma RejectAllUnion(st: State, S: set<Constraint>, T: set<Constraint>)
    ensures RejectAll(RejectAll(st, S), T) == RejectAll(st, S + T)
  {
    forall k | k in st
      ensures RejectAll(RejectAll(st, S), T)[k] == RejectAll(st, S + T)[k]
    {
      RejectionsUnion(st[k].decision, S, T, k);
    }
  }

  /** `c` together with everything reached from its children is all that is reached from it. */
  lemma ReachUnfolds(g: Graph, c: Constraint)
    requires Grounded(g)
    ensures Reach(g, c) == {c} + set d, e | d in Kids(g, c) && e in Reach(g, d) :: e
  {
    hide Grounded, Below, Kids;
    forall d | d in Kids(g, c) ensures Reach(g, d) <= Reach(g, c) { ReachOfKid(g, c, d); }
    forall e | e in Reach(g, c) && e != c
      ensures exists d :: d in Kids(g, c) && e in Reach(g, d)
    {
      var d := ReachViaKid(g, c, e);
    }
  }

  // ----- one vote on one constraint -----

  ghost function Confidence(g: Graph, st: State, c: Constraint): nat
    requires Grounded(g)
  {
    |Supporters(g, st, c)|
  }

  /** Updating the state variables of a constraint on a positive vote. */
  ghost function Tally(g: Graph, st: State, c: Constraint): State
    requires Grounded(g)
  {
    if c.Key() !in st then st
    else
      var s := st[c.Key()];
      var opposing := if c.IsUnity() then 0 else Confidence(g, st, c.Flip());
      st[c.Key() := s.(
        confidence := s.confidence[c := Confidence(g, st, c)],
        preferred := if Confidence(g, st, c) > opposing then c else s.preferred,
        last := c,
        count := s.count[c := if s.last != c then 1 else Count(st, c) + 1])]
  }

  ghost predicate ParentsAccepted(g: Graph, st: State, c: Constraint) {
    forall p :: p in ConstraintParents(g, c) ==> Accepted(st, p)
  }

  /** Acceptance, and early acceptance of a constraint which can have no conflict. */
  ghost predicate Accepts(cfg: Config, g: Graph, st: State, c: Constraint) {
    || Count(st, c) >= cfg.threshAccepted
    || (c.IsUnity() && ParentsAccepted(g, st, c) && Count(st, c) >= cfg.threshSafeEarlyCommit)
  }

  ghost function MarkAccepted(st: State, c: Constraint): State {
    if c.Key() !in st then st
    else st[c.Key() := st[c.Key()].(decision := st[c.Key()].decision[c := true], preferred := c)]
  }

  /** Accepting a constraint rejects the opposite order and all of its progeny. */
  ghost function Accept(g: Graph, st: State, c: Constraint): State
    requires Grounded(g)
  {
    if c.IsUnity() then MarkAccepted(st, c) else RejectAll(MarkAccepted(st, c), Reach(g, c.Flip()))
  }

  ghost function VoteFor(cfg: Config, g: Graph, st: State, c: Constraint): State
    requires Grounded(g)
  {
    if Accepts(cfg, g, Tally(g, st, c), c) then Accept(g, Tally(g, st, c), c) else Tally(g, st, c)
  }

  ghost function VoteAgainst(st: State, c: Constraint): State {
    if c.Key() !in st then st else st[c.Key() := st[c.Key()].(count := st[c.Key()].count[c := 0])]
  }

  ghost function VoteOn(cfg: Config, g: Graph, st: State, c: Constraint, preferred: bool): State
    requires Grounded(g)
  {
    if preferred then VoteFor(cfg, g, st, c) else VoteAgainst(st, c)
  }

  ghost function VoteAll(cfg: Config, g: Graph, st: State, cs: seq<Constraint>, preferred: bool): State
    requires Grounded(g)
  {
    if cs == [] then st
    else VoteOn(cfg, g, VoteAll(cfg, g, st, cs[..|cs| - 1], preferred), cs[|cs| - 1], preferred)
  }

  // ----- effects of one vote -----

  lemma TallyFacts(g: Graph, st: State, c: Constraint, d: Constraint)
    requires Grounded(g) && c.Key() in st
    ensures Dec(Tally(g, st, c), d) == Dec(st, d)
    ensures Chit(Tally(g, st, c), d) == Chit(st, d)
    ensures Count(Tally(g, st, c), d) ==
            if d != c then Count(st, d) else if st[c.Key()].last != c then 1 else Count(st, c) + 1
    ensures Tally(g, st, c).Keys == st.Keys
  {
  }

  lemma FlipReach(g: Graph, c: Constraint, d: Constraint)
    requires Grounded(g) && !c.IsUnity() && d in Reach(g, c.Flip())
    ensures d != c
    ensures d in Reg(g) || d == c.Flip()
  {
    if d != c.Flip() {
      BelowIrreflexive(g, c.Flip(), d);
    }
  }

  /** What accepting `c` does to the decision on `d`. */
  lemma AcceptFacts(g: Graph, st: State, c: Constraint, d: Constraint)
    requires Grounded(g) && (forall e :: e in Reg(g) ==> e.Key() in st) && c.Key() in st
    ensures Dec(Accept(g, st, c), d) ==
            if d == c then Some(true)
            else if !c.IsUnity() && d in Reach(g, c.Flip()) then Some(false)
            else Dec(st, d)
    ensures Count(Accept(g, st, c), d) == Count(st, d)
    ensures Chit(Accept(g, st, c), d) == Chit(st, d)
  {
    assert Dec(MarkAccepted(st, c), d) == if d == c then Some(true) else Dec(st, d);
    if !c.IsUnity() {
      if d in Reach(g, c.Flip()) {
        FlipReach(g, c, d);
      }
    }
  }

  /** What a positive vote on `c` does to `d`. */
  lemma VoteForFacts(cfg: Config, g: Graph, st: State, c: Constraint, d: Constraint)
    requires Grounded(g) && (forall e :: e in Reg(g) ==> e.Key() in st) && c.Key() in st
    ensures Dec(VoteFor(cfg, g, st, c), d) ==
            if !Accepts(cfg, g, Tally(g, st, c), c) then Dec(st, d)
            else if d == c then Some(true)
            else if !c.IsUnity() && d in Reach(g, c.Flip()) then Some(false)
            else Dec(st, d)
    ensures Count(VoteFor(cfg, g, st, c), d) ==
            if d != c then Count(st, d) else if st[c.Key()].last != c then 1 else Count(st, c) + 1
    ensures Chit(VoteFor(cfg, g, st, c), d) == Chit(st, d)
  {
    TallyFacts(g, st, c, d);
    if Accepts(cfg, g, Tally(g, st, c), c) {
      AcceptFacts(g, Tally(g, st, c), c, d);
    }
  }

  lemma TallyShape(g: Graph, st: State, c: Constraint)
    requires Grounded(g)
    ensures SameShape(st, Tally(g, st, c))
  {
  }

  lemma MarkAcceptedShape(st: State, c: Constraint)
    ensures SameShape(st, MarkAccepted(st, c))
  {
  }

  lemma AcceptShape(g: Graph, st: State, c: Constraint)
    requires Grounded(g)
    ensures SameShape(st, Accept(g, st, c))
  {
    var accepted := MarkAccepted(st, c);
    MarkAcceptedShape(st, c);
    ShapeTrans(st, accepted, RejectAll(accepted, Reach(g, c.Flip())));
  }

  lemma VoteShape(cfg: Config, g: Graph, st: State, c: Constraint, preferred: bool)
    requires Grounded(g)
    ensures SameShape(st, VoteOn(cfg, g, st, c, preferred))
  {
    if preferred {
      var t := Tally(g, st, c);
      assert SameShape(st, Tally(g, st, c));
      AcceptShape(g, t, c);
      ShapeTrans(st, t, Accept(g, t, c));
    }
  }

  lemma {:induction false} VoteAllShape(cfg: Config, g: Graph, st: State, cs: seq<Constraint>, preferred: bool)
    requires Grounded(g)
    ensures SameShape(st, VoteAll(cfg, g, st, cs, preferred))
  {
    if cs == [] {
      assert SameShape(st, st);
    } else {
      var before := VoteAll(cfg, g, st, cs[..|cs| - 1], preferred);
      VoteAllShape(cfg, g, st, cs[..|cs| - 1], preferred);
      VoteShape(cfg, g, before, cs[|cs| - 1], preferred);
      ShapeTrans(st, before, VoteAll(cfg, g, st, cs, preferred));
    }
  }

  lemma ShapeKeepsChits(g: Graph, st: State, st': State)
    requires Grounded(g) && SameShape(st, st')
    ensures forall c :: Chit(st', c) == Chit(st, c)
    ensures forall c :: Supporters(g, st', c) == Supporters(g, st, c)
  {
    forall c
      ensures Chit(st', c) == Chit(st, c)
    {
      if c.Key() in st { assert SameEntries(c.Key(), st[c.Key()], st'[c.Key()]); }
    }
    forall c
      ensures Supporters(g, st', c) == Supporters(g, st, c)
    {
    }
  }
}

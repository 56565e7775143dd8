/**
 Registering the constraints of a new vertex in the constraint graph (src/consensus/dag.rs:
 `insert`), and why the registered edges are the ones induced by the vertices.
 */
module Insertion {
  import opened Wrappers
  import opened Vertices
  import opened Ancestry
  import opened DagTypes
  import opened Voting

  // ----- the effect on the state -----

  /** Adds the constraints `S` as children of their constraint parents. */
  ghost function WithChildren(g: Graph, s: ConflictSet, S: set<Constraint>): ConflictSet {
    s.(children := map p | p in s.children :: s.children[p] + ChildrenAmong(g, p, S))
  }

  ghost function ChildrenAmong(g: Graph, p: Constraint, S: set<Constraint>): set<Constraint> {
    set c | c in S && p in ConstraintParents(g, c)
  }

  ghost predicate HasRejectedParent(g: Graph, st: State, c: Constraint) {
    exists p :: p in ConstraintParents(g, c) && Rejected(st, p)
  }

  /** The conflict set created for `c`: rejected from the start if a parent is. */
  ghost function FreshSet(g: Graph, st: State, c: Constraint): ConflictSet {
    NewConflictSet(c, ConstraintParents(g, c)).(
      decision := if HasRejectedParent(g, st, c) then map[c := false] else map[])
  }

  /** The state once the constraints `S` are registered; `g` has their end points. */
  ghost function Register(g: Graph, st: State, S: set<Constraint>): State
    requires OneOrder(S)
  {
    map k | k in st.Keys + KeysOf(S) ::
      if k in st then WithChildren(g, st[k], S) else FreshSet(g, st, WithKey(S, k))
  }

  ghost predicate OneOrder(S: set<Constraint>) {
    forall c, d :: c in S && d in S && c.Key() == d.Key() ==> c == d
  }

  ghost function KeysOf(S: set<Constraint>): set<ConflictSetKey> {
    set c | c in S :: c.Key()
  }

  ghost function WithKey(S: set<Constraint>, k: ConflictSetKey): (c: Constraint)
    requires k in KeysOf(S)
    ensures c in S && c.Key() == k
  {
    var c :| c in S && c.Key() == k;
    c
  }

  lemma ParentListOneOrder(ps: seq<VertexHash>)
    requires Distinct(ps)
    ensures OneOrder(PC(ps))
  {
    forall c, d | c in PC(ps) && d in PC(ps) && c.Key() == d.Key()
      ensures c == d
    {
      KeyIdentifiesConflictSet(c, d);
      OneOrientation(ps, c.left, c.right);
    }
  }

  /** A vertex that may join the graph. */
  ghost predicate Joins(g: Graph, v: Vertex) {
    v.hash !in g && ParentsBelow(g, v) && Distinct(v.parents)
  }

  ghost function With(g: Graph, v: Vertex): Graph {
    g[v.hash := v]
  }

  /** Parent constraints first, the unity of the vertex last. */
  ghost function InsertState(g: Graph, st: State, v: Vertex): State
    requires Joins(g, v)
  {
    ParentListOneOrder(v.parents);
    Register(With(g, v), Register(With(g, v), st, PC(v.parents)), {Unity(v.hash)})
  }

  lemma RegisterKeyOneMore(g: Graph, st: State, S: set<Constraint>, c: Constraint, k: ConflictSetKey)
    requires OneOrder(S + {c}) && OneOrder(S) && c !in S
    requires forall p :: p in ConstraintParents(g, c) ==> p.Key() in st
    requires k in st.Keys + KeysOf(S) + {c.Key()}
    ensures k in Register(g, Register(g, st, S), {c}) && k in Register(g, st, S + {c})
    ensures Register(g, Register(g, st, S), {c})[k] == Register(g, st, S + {c})[k]
  {
    assert c.Key() in KeysOf({c}) && c.Key() in KeysOf(S + {c});
    assert k in KeysOf(S) ==> k in KeysOf(S + {c});
    if k in st {
      ChildrenUnion(g, st[k], S, c);
    } else if k in KeysOf(S) {
      var d := WithKey(S, k);
      assert WithKey(S + {c}, k) == d;
      FreshUnaffected(g, st, d, c);
    } else {
      assert WithKey(S + {c}, k) == c == WithKey({c}, k);
      RegisterKeepsDec(g, st, S);
    }
  }

  lemma SameMap<K, V>(a: map<K, V>, b: map<K, V>)
    requires a.Keys == b.Keys && forall k :: k in a ==> a[k] == b[k]
    ensures a == b
  {
  }

  lemma RegisterDomain(g: Graph, st: State, S: set<Constraint>)
    requires OneOrder(S)
    ensures Register(g, st, S).Keys == st.Keys + KeysOf(S)
  {
  }

  /** Registering a set constraint by constraint, in any order. */
  lemma RegisterOneMore(g: Graph, st: State, S: set<Constraint>, c: Constraint)
    requires OneOrder(S + {c}) && OneOrder(S) && c !in S
    requires forall p :: p in ConstraintParents(g, c) ==> p.Key() in st
    ensures Register(g, Register(g, st, S), {c}) == Register(g, st, S + {c})
  {
    hide Register, ConstraintParents;
    var a, b := Register(g, Register(g, st, S), {c}), Register(g, st, S + {c});
    RegisterDomain(g, st, S);
    RegisterDomain(g, Register(g, st, S), {c});
    RegisterDomain(g, st, S + {c});
    forall k | k in a
      ensures a[k] == b[k]
    {
      RegisterKeyOneMore(g, st, S, c, k);
    }
    SameMap(a, b);
  }

  lemma AmongUnion(g: Graph, p: Constraint, S: set<Constraint>, c: Constraint)
    ensures ChildrenAmong(g, p, S) + ChildrenAmong(g, p, {c}) == ChildrenAmong(g, p, S + {c})
  {
  }

  lemma ChildrenUnion(g: Graph, s: ConflictSet, S: set<Constraint>, c: Constraint)
    ensures WithChildren(g, WithChildren(g, s, S), {c}) == WithChildren(g, s, S + {c})
  {
    var a, b := WithChildren(g, WithChildren(g, s, S), {c}), WithChildren(g, s, S + {c});
    forall p | p in s.children
      ensures a.children[p] == b.children[p]
    {
      hide ChildrenAmong;
      AmongUnion(g, p, S, c);
    }
    SameMap(a.children, b.children);
  }

  lemma FreshUnaffected(g: Graph, st: State, d: Constraint, c: Constraint)
    requires d.Key() !in st
    requires forall p :: p in ConstraintParents(g, c) ==> p.Key() in st
    ensures WithChildren(g, FreshSet(g, st, d), {c}) == FreshSet(g, st, d)
  {
    var f := FreshSet(g, st, d);
    forall p | p in f.children
      ensures WithChildren(g, f, {c}).children[p] == f.children[p]
    {
      KeyIdentifiesConflictSet(p, d);
      assert p == d || p == d.Flip();
      assert ChildrenAmong(g, p, {c}) == {};
    }
    assert WithChildren(g, f, {c}).children == f.children;
  }

  /** Existing decisions are untouched. */
  lemma RegisterKeepsDec(g: Graph, st: State, S: set<Constraint>)
    requires OneOrder(S)
    ensures forall p: Constraint :: p.Key() in st ==> Dec(Register(g, st, S), p) == Dec(st, p)
  {
  }

  // ----- the constraint graph of the grown vertex graph -----

  lemma GrownGrounded(g: Graph, v: Vertex)
    requires Grounded(g) && Joins(g, v)
    ensures Grounded(With(g, v)) && Extends(g, With(g, v))
  {
    var g' := With(g, v);
    forall h | h in g'
      ensures g'[h].hash == h && ParentsBelow(g', g'[h])
    {
      assert h in g ==> ParentsBelow(g, g[h]);
    }
  }

  lemma GrownReg(g: Graph, v: Vertex, c: Constraint)
    requires v.hash !in g
    ensures c in Reg(With(g, v)) <==> c in Reg(g) || c in Commits(v)
  {
    var g' := With(g, v);
    hide Commits;
    if c in Commits(v) { RegMember(g', v.hash, c); }
    if c in Reg(g) {
      var h :| h in g && c in Commits(g[h]);
      RegMember(g', h, c);
    }
  }

  lemma GrownGraph(g: Graph, v: Vertex)
    requires Grounded(g) && Joins(g, v)
    ensures Grounded(With(g, v)) && Extends(g, With(g, v))
    ensures Reg(With(g, v)) == Reg(g) + PC(v.parents) + {Unity(v.hash)}
  {
    GrownGrounded(g, v);
    hide Grounded, Joins, Extends, Reg, With, PC;
    forall c ensures c in Reg(With(g, v)) <==> c in Reg(g) || c in Commits(v) { NotYetIn(g, v); GrownReg(g, v, c); }
  }

  lemma NotYetIn(g: Graph, v: Vertex)
    requires Joins(g, v)
    ensures v.hash !in g
  {
  }

  lemma OldConstraintParents(g: Graph, v: Vertex, d: Constraint)
    requires Grounded(g) && Joins(g, v) && d.left in g && d.right in g
    ensures ConstraintParents(With(g, v), d) == ConstraintParents(g, d) <= Reg(g)
  {
    forall p | p in ConstraintParents(g, d)
      ensures p in Reg(g)
    {
      var h := if p in PC(g[d.left].parents) then d.left else d.right;
      RegMember(g, h, p);
    }
  }

  lemma OldConstraints(g: Graph, v: Vertex, d: Constraint)
    requires Grounded(g) && Joins(g, v) && d in Reg(g) + PC(v.parents)
    ensures ConstraintParents(With(g, v), d) == ConstraintParents(g, d) <= Reg(g)
  {
    if d in Reg(g) { RegEndpoints(g, d); }
    OldConstraintParents(g, v, d);
  }

  lemma KidAfter(g: Graph, v: Vertex, p: Constraint, d: Constraint)
    requires Grounded(g) && Joins(g, v)
    ensures d in Kids(With(g, v), p) <==>
            || d in Kids(g, p)
            || d in ChildrenAmong(With(g, v), p, PC(v.parents))
            || d in ChildrenAmong(With(g, v), p, {Unity(v.hash)})
  {
    GrownGraph(g, v);
    if d in Reg(g) {
      OldConstraints(g, v, d);
    }
  }

  /** The children a constraint has once the vertex has joined. */
  lemma KidsAfter(g: Graph, v: Vertex, p: Constraint)
    requires Grounded(g) && Joins(g, v)
    ensures Kids(With(g, v), p) ==
            Kids(g, p) + ChildrenAmong(With(g, v), p, PC(v.parents)) + ChildrenAmong(With(g, v), p, {Unity(v.hash)})
  {
    forall d { KidAfter(g, v, p, d); }
  }

  /** An unregistered constraint has no children but possibly the unity of the new vertex. */
  lemma KidsOfUnregistered(g: Graph, v: Vertex, p: Constraint)
    requires Grounded(g) && Joins(g, v) && p !in Reg(g)
    ensures Kids(With(g, v), p) == ChildrenAmong(With(g, v), p, {Unity(v.hash)})
  {
    KidsAfter(g, v, p);
    forall d | d in Reg(g) + PC(v.parents)
      ensures p !in ConstraintParents(g, d) && p !in ConstraintParents(With(g, v), d)
    {
      OldConstraints(g, v, d);
    }
  }

  // ----- the state stays faithful to the graph -----

  lemma NewSetEntries(g: Graph, st: State, c: Constraint, d: Constraint)
    requires d.Key() == c.Key()
    ensures d == c || d == c.Flip()
    ensures d in FreshSet(g, st, c).children && FreshSet(g, st, c).children[d] == {}
  {
    KeyIdentifiesConflictSet(c, d);
  }

  /** Conflict sets that existed before gain exactly the new children. */
  lemma OldSetOk(g: Graph, st: State, v: Vertex, k: ConflictSetKey)
    requires Grounded(g) && StateOk(g, st) && Joins(g, v) && k in st
    ensures k in InsertState(g, st, v) && ConflictSetOk(With(g, v), k, InsertState(g, st, v)[k])
  {
    var g', u := With(g, v), Unity(v.hash);
    ParentListOneOrder(v.parents);
    var s := st[k];
    var s1 := WithChildren(g', s, PC(v.parents));
    var s2 := WithChildren(g', s1, {u});
    assert Register(g', st, PC(v.parents))[k] == s1;
    assert InsertState(g, st, v)[k] == s2;
    GrownGraph(g, v);
    assert ConflictSetOk(g, k, s);
    forall c: Constraint | c.Key() == k
      ensures EntriesOk(g', s2, c)
    {
      assert EntriesOk(g, s, c);
      KidsAfter(g, v, c);
      if c.IsUnity() {
        KeyRegistered(g, st, c);
        RegEndpoints(g, c);
        OldConstraintParents(g, v, c);
      }
    }
  }

  lemma PairValue(g: Graph, st: State, v: Vertex, c: Constraint)
    requires Joins(g, v) && c in PC(v.parents) && c.Key() !in st
    ensures c.Key() in InsertState(g, st, v)
    ensures InsertState(g, st, v)[c.Key()] == WithChildren(With(g, v), FreshSet(With(g, v), st, c), {Unity(v.hash)})
  {
    ParentListOneOrder(v.parents);
    assert c.Key() in KeysOf(PC(v.parents));
    assert WithKey(PC(v.parents), c.Key()) == c;
    assert Register(With(g, v), st, PC(v.parents))[c.Key()] == FreshSet(With(g, v), st, c);
  }

  lemma PairEntries(g: Graph, st: State, v: Vertex, c: Constraint, d: Constraint)
    requires Grounded(g) && StateOk(g, st) && Joins(g, v) && c in PC(v.parents) && c.Key() !in st && d.Key() == c.Key()
    ensures EntriesOk(With(g, v), WithChildren(With(g, v), FreshSet(With(g, v), st, c), {Unity(v.hash)}), d)
  {
    NewSetEntries(With(g, v), st, c, d);
    assert d !in Reg(g);
    KidsOfUnregistered(g, v, d);
    if c.IsUnity() { RegMember(g, c.left, c); }
  }

  lemma FreshShape(g: Graph, st: State, c: Constraint, d: Constraint)
    requires d in FreshSet(g, st, c).children
    ensures d.Key() == c.Key()
    ensures FreshSet(g, st, c).last == c && FreshSet(g, st, c).preferred == c
  {
    KeyIdentifiesConflictSet(c, c.Flip());
  }

  /** Conflict sets created for a pair of parents end up with the unity of the vertex as the
      only child. */
  lemma PairSetOk(g: Graph, st: State, v: Vertex, c: Constraint)
    requires Grounded(g) && StateOk(g, st) && Joins(g, v) && c in PC(v.parents) && c.Key() !in st
    ensures c.Key() in InsertState(g, st, v)
    ensures ConflictSetOk(With(g, v), c.Key(), InsertState(g, st, v)[c.Key()])
  {
    hide Grounded, StateOk, Joins, EntriesOk, FreshSet, With, InsertState;
    var f := FreshSet(With(g, v), st, c);
    PairValue(g, st, v, c);
    GrownGraph(g, v);
    assert c in Reg(With(g, v));
    forall d: Constraint | d.Key() == c.Key()
      ensures EntriesOk(With(g, v), WithChildren(With(g, v), f, {Unity(v.hash)}), d)
    {
      PairEntries(g, st, v, c, d);
    }
    NewSetEntries(With(g, v), st, c, c);
    forall d | d in f.children { FreshShape(With(g, v), st, c, d); }
  }

  lemma UnityIsNew(g: Graph, st: State, v: Vertex)
    requires Grounded(g) && StateOk(g, st) && Joins(g, v)
    ensures Unity(v.hash).Key() !in st && Unity(v.hash).Key() !in KeysOf(PC(v.parents))
    ensures Unity(v.hash) !in Reg(g) && Unity(v.hash) !in PC(v.parents)
  {
    var u := Unity(v.hash);
    if u.Key() in st {
      KeyRegistered(g, st, u);
      RegEndpoints(g, u);
    }
    if u in Reg(g) { RegEndpoints(g, u); }
    if u.Key() in KeysOf(PC(v.parents)) {
      KeyIdentifiesConflictSet(u, WithKey(PC(v.parents), u.Key()));
    }
  }

  lemma UnityEntries(g: Graph, st: State, st1: State, v: Vertex, d: Constraint)
    requires Grounded(g) && StateOk(g, st) && Joins(g, v) && d.Key() == Unity(v.hash).Key()
    ensures EntriesOk(With(g, v), FreshSet(With(g, v), st1, Unity(v.hash)), d)
  {
    hide Grounded, StateOk, Joins, Reg, Kids;
    UnityIsNew(g, st, v);
    NewSetEntries(With(g, v), st1, Unity(v.hash), d);
    KidsOfUnregistered(g, v, Unity(v.hash));
  }

  lemma UnitySetOk(g: Graph, st: State, v: Vertex)
    requires Grounded(g) && StateOk(g, st) && Joins(g, v)
    ensures var u := Unity(v.hash); var st1 := (ParentListOneOrder(v.parents); Register(With(g, v), st, PC(v.parents)));
            && u.Key() in InsertState(g, st, v)
            && ConflictSetOk(With(g, v), u.Key(), InsertState(g, st, v)[u.Key()])
            && InsertState(g, st, v)[u.Key()] == FreshSet(With(g, v), st1, u)
  {
    hide Grounded, StateOk, EntriesOk, With, FreshSet, OneOrder;
    var g', u := With(g, v), Unity(v.hash);
    ParentListOneOrder(v.parents);
    var st1 := Register(g', st, PC(v.parents));
    GrownGraph(g, v);
    UnityIsNew(g, st, v);
    assert u.Key() in KeysOf({u});
    assert WithKey({u}, u.Key()) == u;
    forall d: Constraint | d.Key() == u.Key()
      ensures EntriesOk(g', FreshSet(g', st1, u), d)
    {
      UnityEntries(g, st, st1, v, d);
    }
    NewSetEntries(g', st1, u, u);
    forall d | d in FreshSet(g', st1, u).children { FreshShape(g', st1, u, d); }
  }

  lemma InsertKeys(g: Graph, st: State, v: Vertex)
    requires Joins(g, v)
    ensures InsertState(g, st, v).Keys == st.Keys + KeysOf(PC(v.parents)) + {Unity(v.hash).Key()}
  {
    hide With, FreshSet, PC;
    assert KeysOf({Unity(v.hash)}) == {Unity(v.hash).Key()};
  }

  /** The state stays faithful to the grown graph. */
  lemma InsertKeepsStateOk(g: Graph, st: State, v: Vertex)
    requires Grounded(g) && StateOk(g, st) && Joins(g, v)
    ensures StateOk(With(g, v), InsertState(g, st, v))
  {
    hide ConflictSetOk, FreshSet, Grounded, Kids, InsertState, With, PC;
    var g', u := With(g, v), Unity(v.hash);
    ParentListOneOrder(v.parents);
    var st' := InsertState(g, st, v);
    InsertKeys(g, st, v);
    GrownGraph(g, v);
    UnitySetOk(g, st, v);
    forall k | k in st'
      ensures ConflictSetOk(g', k, st'[k])
    {
      if k in st {
        OldSetOk(g, st, v, k);
      } else if k in KeysOf(PC(v.parents)) {
        PairSetOk(g, st, v, WithKey(PC(v.parents), k));
      }
    }
  }

  // ----- what changes for a single constraint -----

  /** Constraints whose conflict set existed keep their decision, chit and counters. */
  lemma InsertKeeps(g: Graph, st: State, v: Vertex, c: Constraint)
    requires Joins(g, v) && c.Key() in st
    ensures c.Key() in InsertState(g, st, v)
    ensures Dec(InsertState(g, st, v), c) == Dec(st, c)
    ensures Chit(InsertState(g, st, v), c) == Chit(st, c)
    ensures Count(InsertState(g, st, v), c) == Count(st, c)
    ensures InsertState(g, st, v)[c.Key()].last == st[c.Key()].last
    ensures InsertState(g, st, v)[c.Key()].preferred == st[c.Key()].preferred
    ensures InsertState(g, st, v)[c.Key()].confidence == st[c.Key()].confidence
  {
    ParentListOneOrder(v.parents);
    var k := c.Key();
    assert Register(With(g, v), st, PC(v.parents))[k] == WithChildren(With(g, v), st[k], PC(v.parents));
    assert InsertState(g, st, v)[k] ==
           WithChildren(With(g, v), Register(With(g, v), st, PC(v.parents))[k], {Unity(v.hash)});
  }

  lemma FreshFacts(g: Graph, st: State, c: Constraint, d: Constraint)
    requires d.Key() == c.Key()
    ensures d in FreshSet(g, st, c).decision <==> d == c && HasRejectedParent(g, st, c)
    ensures HasRejectedParent(g, st, c) ==> FreshSet(g, st, c).decision == map[c := false]
    ensures d in FreshSet(g, st, c).count && FreshSet(g, st, c).count[d] == 0
    ensures d in FreshSet(g, st, c).chit && !FreshSet(g, st, c).chit[d]
    ensures d in FreshSet(g, st, c).confidence && FreshSet(g, st, c).confidence[d] == 0
    ensures FreshSet(g, st, c).last == c && FreshSet(g, st, c).preferred == c
  {
    KeyIdentifiesConflictSet(c, d);
  }

  /** A new pair of parents starts with the order met preferred and last voted on, without votes,
      chits and confidence, and undecided, unless a constraint parent of that order is rejected. */
  lemma InsertPair(g: Graph, st: State, v: Vertex, c: Constraint, d: Constraint)
    requires Grounded(g) && Joins(g, v) && c in PC(v.parents) && c.Key() !in st && d.Key() == c.Key()
    ensures c.Key() in InsertState(g, st, v)
    ensures Dec(InsertState(g, st, v), d) == if d == c && HasRejectedParent(g, st, c) then Some(false) else None
    ensures Count(InsertState(g, st, v), d) == 0 && !Chit(InsertState(g, st, v), d)
    ensures InsertState(g, st, v)[c.Key()].preferred == c && InsertState(g, st, v)[c.Key()].last == c
    ensures var made := InsertState(g, st, v)[c.Key()]; d in made.confidence && made.confidence[d] == 0
  {
    PairValue(g, st, v, c);
    FreshFacts(With(g, v), st, c, d);
  }

  lemma UnityRejectedParent(g: Graph, st: State, v: Vertex)
    requires Grounded(g) && StateOk(g, st) && Joins(g, v)
    ensures OneOrder(PC(v.parents))
    ensures HasRejectedParent(With(g, v), Register(With(g, v), st, PC(v.parents)), Unity(v.hash)) <==>
            exists p :: p in PC(v.parents) && Rejected(InsertState(g, st, v), p)
  {
    var g', u := With(g, v), Unity(v.hash);
    ParentListOneOrder(v.parents);
    assert ConstraintParents(g', u) == PC(v.parents);
    forall p | p in PC(v.parents)
      ensures Rejected(Register(g', st, PC(v.parents)), p) <==> Rejected(InsertState(g, st, v), p)
    {
      ParentListOneOrder(v.parents);
      RegisterKeepsDec(With(g, v), Register(With(g, v), st, PC(v.parents)), {Unity(v.hash)});
    }
  }

  /** The vertex itself starts undecided, or rejected if a constraint it commits to is. */
  lemma InsertUnity(g: Graph, st: State, v: Vertex)
    requires Grounded(g) && StateOk(g, st) && Joins(g, v)
    ensures Unity(v.hash).Key() !in st
    ensures Unity(v.hash).Key() in InsertState(g, st, v)
    ensures var made := InsertState(g, st, v)[Unity(v.hash).Key()];
            && made.preferred == Unity(v.hash) && made.last == Unity(v.hash)
            && Unity(v.hash) in made.confidence && made.confidence[Unity(v.hash)] == 0
    ensures Count(InsertState(g, st, v), Unity(v.hash)) == 0 && !Chit(InsertState(g, st, v), Unity(v.hash))
    ensures Dec(InsertState(g, st, v), Unity(v.hash)) ==
            if exists p :: p in PC(v.parents) && Rejected(InsertState(g, st, v), p) then Some(false) else None
  {
    var u := Unity(v.hash);
    ParentListOneOrder(v.parents);
    UnitySetOk(g, st, v);
    UnityIsNew(g, st, v);
    FreshFacts(With(g, v), Register(With(g, v), st, PC(v.parents)), u, u);
    UnityRejectedParent(g, st, v);
  }

  /** Inserting accepts nothing. */
  lemma InsertAcceptsNothing(g: Graph, st: State, v: Vertex, c: Constraint)
    requires Grounded(g) && StateOk(g, st) && Joins(g, v) && Accepted(InsertState(g, st, v), c)
    ensures Accepted(st, c)
  {
    if c.Key() in st {
      InsertKeeps(g, st, v, c);
    } else {
      NewConstraint(g, st, v, c);
    }
  }

  /** A constraint without a conflict set gets one only if the vertex commits to it or to its
      opposite; it starts uncounted, without chit, and not accepted. */
  lemma NewConstraint(g: Graph, st: State, v: Vertex, c: Constraint)
    requires Grounded(g) && StateOk(g, st) && Joins(g, v) && c.Key() !in st
    ensures !Accepted(InsertState(g, st, v), c)
    ensures Count(InsertState(g, st, v), c) == 0 && !Chit(InsertState(g, st, v), c)
  {
    var u := Unity(v.hash);
    ParentListOneOrder(v.parents);
    InsertUnity(g, st, v);
    if c.Key() in KeysOf(PC(v.parents)) {
      InsertPair(g, st, v, WithKey(PC(v.parents), c.Key()), c);
    } else if c.Key() == u.Key() {
      KeyIdentifiesConflictSet(u, c);
    } else {
      assert c.Key() !in InsertState(g, st, v);
    }
  }
}

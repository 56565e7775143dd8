/**
 Ancestry in a vertex graph, and in the constraint graph it induces.

 These are the plain, state-free notions the search and the voting of src/consensus/dag.rs are
 measured against: strict ancestors, the constraints a vertex commits to directly or through
 its ancestors, and reachability between constraints.
 */
module Ancestry {
  import opened Vertices

  type Graph = map<VertexHash, Vertex>

  /** Every parent is in the graph, strictly lower than its child. */
  ghost predicate Grounded(g: Graph) {
    forall h :: h in g ==> g[h].hash == h && ParentsBelow(g, g[h])
  }

  ghost predicate ParentsBelow(g: Graph, v: Vertex) {
    forall p :: p in v.parents ==> p in g && g[p].height < v.height
  }

  /** Strict ancestors. */
  ghost function Anc(g: Graph, h: VertexHash): (r: set<VertexHash>)
    requires Grounded(g) && h in g
    ensures forall a :: a in r ==> a in g && g[a].height < g[h].height
    decreases g[h].height
  {
    assert ParentsBelow(g, g[h]);
    Elements(g[h].parents) + set p, a | p in g[h].parents && a in Anc(g, p) :: a
  }

  ghost function AncEq(g: Graph, h: VertexHash): (r: set<VertexHash>)
    requires Grounded(g) && h in g
    ensures forall a :: a in r ==> a in g && g[a].height <= g[h].height
  {
    Anc(g, h) + {h}
  }

  lemma {:induction false} AncTrans(g: Graph, a: VertexHash, b: VertexHash, c: VertexHash)
    requires Grounded(g) && c in g && b in Anc(g, c) && a in Anc(g, b)
    ensures a in Anc(g, c)
    decreases g[c].height
  {
    assert ParentsBelow(g, g[c]);
    if b !in g[c].parents {
      var p :| p in g[c].parents && b in Anc(g, p);
      AncTrans(g, a, b, p);
    }
  }

  /** A strict ancestor of h is a parent, or a strict ancestor of one. */
  lemma AncViaParent(g: Graph, a: VertexHash, h: VertexHash) returns (p: VertexHash)
    requires Grounded(g) && h in g && a in Anc(g, h)
    ensures p in g[h].parents && p in g && a in AncEq(g, p)
  {
    assert ParentsBelow(g, g[h]);
    if a in g[h].parents {
      p := a;
    } else {
      p :| p in g[h].parents && a in Anc(g, p);
    }
  }

  lemma AncEqOfParent(g: Graph, h: VertexHash, p: VertexHash)
    requires Grounded(g) && h in g && p in g[h].parents
    ensures p in g && AncEq(g, p) <= Anc(g, h)
  {
    assert ParentsBelow(g, g[h]);
  }

  /** A strict ancestor of h has a child among h and its ancestors. */
  lemma {:induction false} AncHasChild(g: Graph, a: VertexHash, h: VertexHash) returns (z: VertexHash)
    requires Grounded(g) && h in g && a in Anc(g, h)
    ensures z in AncEq(g, h) && a in g[z].parents
    decreases g[h].height
  {
    assert ParentsBelow(g, g[h]);
    var p := AncViaParent(g, a, h);
    if p == a {
      z := h;
    } else {
      z := AncHasChild(g, a, p);
      AncEqOfParent(g, h, p);
    }
  }

  // ----- constraints of ancestors -----

  /** The constraints committed to by a vertex or one of its ancestors. */
  ghost function AC(g: Graph, h: VertexHash): (r: set<Constraint>)
    requires Grounded(g) && h in g
  {
    set x, c | x in AncEq(g, h) && c in PC(g[x].parents) :: c
  }

  lemma ACMember(g: Graph, h: VertexHash, x: VertexHash, c: Constraint)
    requires Grounded(g) && h in g && x in AncEq(g, h) && c in PC(g[x].parents)
    ensures c in AC(g, h)
  {
  }

  lemma ACEndpoints(g: Graph, h: VertexHash, c: Constraint)
    requires Grounded(g) && h in g && c in AC(g, h)
    ensures c.left in Anc(g, h) && c.right in Anc(g, h)
  {
    var x :| x in AncEq(g, h) && c in PC(g[x].parents);
    assert c.left in g[x].parents && c.right in g[x].parents;
    AncEqOfParent(g, x, c.left);
    AncEqOfParent(g, x, c.right);
    if x != h {
      AncTrans(g, c.left, x, h);
      AncTrans(g, c.right, x, h);
    }
  }

  lemma ACMonotone(g: Graph, a: VertexHash, h: VertexHash)
    requires Grounded(g) && h in g && a in AncEq(g, h)
    ensures AC(g, a) <= AC(g, h)
  {
    hide Grounded, Anc, PC;
    forall c | c in AC(g, a)
      ensures c in AC(g, h)
    {
      var x :| x in AncEq(g, a) && c in PC(g[x].parents);
      if a != h && x != a {
        AncTrans(g, x, a, h);
      }
      ACMember(g, h, x, c);
    }
  }

  /** Unfolding along the parents. */
  lemma ACViaParent(g: Graph, h: VertexHash, c: Constraint)
    requires Grounded(g) && h in g
    ensures c in AC(g, h) <==>
            c in PC(g[h].parents) || exists p :: p in g[h].parents && p in g && c in AC(g, p)
  {
    if c in AC(g, h) {
      var x :| x in AncEq(g, h) && c in PC(g[x].parents);
      if x != h {
        var p := AncViaParent(g, x, h);
        ACMember(g, p, x, c);
      }
    }
    if c in PC(g[h].parents) {
      ACMember(g, h, h, c);
    }
    forall p | p in g[h].parents && p in g && c in AC(g, p)
      ensures c in AC(g, h)
    {
      AncEqOfParent(g, h, p);
      ACMonotone(g, p, h);
    }
  }

  lemma UnityOfAncestor(g: Graph, a: VertexHash, h: VertexHash)
    requires Grounded(g) && h in g
    ensures Unity(a) in AC(g, h) <==> a in Anc(g, h)
  {
    if a in Anc(g, h) {
      var z := AncHasChild(g, a, h);
      ACMember(g, h, z, Unity(a));
    }
    if Unity(a) in AC(g, h) {
      ACEndpoints(g, h, Unity(a));
    }
  }

  // ----- the constraint graph -----

  /** The constraints a vertex puts into the constraint graph. */
  function Commits(v: Vertex): set<Constraint> {
    PC(v.parents) + {Unity(v.hash)}
  }

  ghost function Reg(g: Graph): set<Constraint> {
    set h, c | h in g && c in Commits(g[h]) :: c
  }

  lemma RegMember(g: Graph, h: VertexHash, c: Constraint)
    requires h in g && c in Commits(g[h])
    ensures c in Reg(g)
  {
  }

  lemma RegEndpoints(g: Graph, c: Constraint)
    requires Grounded(g) && c in Reg(g)
    ensures c.left in g && c.right in g
  {
    var h :| h in g && c in Commits(g[h]);
    assert ParentsBelow(g, g[h]);
    assert c == Unity(h) || c in PC(g[h].parents);
  }

  lemma ACRegistered(g: Graph, h: VertexHash)
    requires Grounded(g) && h in g
    ensures AC(g, h) <= Reg(g)
  {
    forall c | c in AC(g, h)
      ensures c in Reg(g)
    {
      var x :| x in AncEq(g, h) && c in PC(g[x].parents);
      RegMember(g, x, c);
    }
  }

  /** The constraints committed to by the end points of a constraint: its parents in the
      constraint graph. */
  function ConstraintParents(g: Graph, c: Constraint): set<Constraint> {
    (if c.left in g then PC(g[c.left].parents) else {}) + (if c.right in g then PC(g[c.right].parents) else {})
  }

  ghost function Kids(g: Graph, c: Constraint): set<Constraint> {
    set d | d in Reg(g) && c in ConstraintParents(g, d)
  }

  /** `d` is a strict descendant of `c` in the constraint graph. */
  ghost predicate Below(g: Graph, c: Constraint, d: Constraint)
    requires Grounded(g)
  {
    d in Reg(g) && ((d.left in g && c in AC(g, d.left)) || (d.right in g && c in AC(g, d.right)))
  }

  /** `c` and everything below it. */
  ghost function Reach(g: Graph, c: Constraint): set<Constraint>
    requires Grounded(g)
  {
    {c} + set d | d in Reg(g) && Below(g, c, d)
  }

  lemma BelowIrreflexive(g: Graph, c: Constraint, d: Constraint)
    requires Grounded(g) && Below(g, c, d)
    ensures d.left != c.left || d.right != c.right
    ensures d != c && d != c.Flip()
  {
    var h := if d.left in g && c in AC(g, d.left) then d.left else d.right;
    ACEndpoints(g, h, c);
  }

  lemma BelowTrans(g: Graph, c: Constraint, d: Constraint, e: Constraint)
    requires Grounded(g) && Below(g, c, d) && Below(g, d, e)
    ensures Below(g, c, e)
  {
    var h := if e.left in g && d in AC(g, e.left) then e.left else e.right;
    ACEndpoints(g, h, d);
    ACMonotone(g, d.left, h);
    ACMonotone(g, d.right, h);
  }

  lemma KidIsBelow(g: Graph, c: Constraint, d: Constraint)
    requires Grounded(g) && d in Kids(g, c)
    ensures Below(g, c, d)
  {
    RegEndpoints(g, d);
    var h := if c in PC(g[d.left].parents) then d.left else d.right;
    ACMember(g, h, h, c);
  }

  /** Following one edge stays inside the reachable set, and never comes back. */
  lemma ReachOfKid(g: Graph, c: Constraint, d: Constraint)
    requires Grounded(g) && d in Kids(g, c)
    ensures Reach(g, d) < Reach(g, c)
  {
    hide Below, Kids, Grounded;
    KidIsBelow(g, c, d);
    forall e | e in Reach(g, d) && e != d
      ensures e in Reach(g, c)
    {
      BelowTrans(g, c, d, e);
    }
    if c in Reach(g, d) {
      BelowIrreflexive(g, c, d);
      BelowTrans(g, c, d, c);
      BelowIrreflexive(g, c, c);
    }
  }

  /** Everything below `c` is reached through one of its children. */
  lemma ReachViaKid(g: Graph, c: Constraint, e: Constraint) returns (d: Constraint)
    requires Grounded(g) && Below(g, c, e)
    ensures d in Kids(g, c) && e in Reach(g, d)
  {
    RegEndpoints(g, e);
    var h := if c in AC(g, e.left) then e.left else e.right;
    var y :| y in AncEq(g, h) && c in PC(g[y].parents);
    if y == h {
      d := e;
    } else {
      d := Unity(y);
      RegMember(g, y, d);
      UnityOfAncestor(g, y, h);
    }
  }

  // ----- growing the graph -----

  ghost predicate Extends(g: Graph, g': Graph) {
    forall h :: h in g ==> h in g' && g'[h] == g[h]
  }

  lemma {:induction false} AncStable(g: Graph, g': Graph, h: VertexHash)
    requires Grounded(g) && Grounded(g') && Extends(g, g') && h in g
    ensures Anc(g, h) == Anc(g', h)
    decreases g[h].height
  {
    assert ParentsBelow(g, g[h]);
    forall p | p in g[h].parents
      ensures Anc(g, p) == Anc(g', p)
    {
      AncStable(g, g', p);
    }
  }

  lemma ACStable(g: Graph, g': Graph, h: VertexHash)
    requires Grounded(g) && Grounded(g') && Extends(g, g') && h in g
    ensures AC(g, h) == AC(g', h)
  {
    AncStable(g, g', h);
    forall c
      ensures c in AC(g, h) <==> c in AC(g', h)
    {
      if c in AC(g, h) {
        var x :| x in AncEq(g, h) && c in PC(g[x].parents);
        ACMember(g', h, x, c);
      }
      if c in AC(g', h) {
        var x :| x in AncEq(g', h) && c in PC(g'[x].parents);
        ACMember(g, h, x, c);
      }
    }
  }
}

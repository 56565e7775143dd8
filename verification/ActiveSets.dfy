/**
 What the height-bounded search computes: its three outcomes, and how the set it returns
 relates to plain reachability, shrinks as decisions are taken, and is inherited by ancestors.
 */
module ActiveSets {
  import opened Wrappers
  import opened Vertices
  import opened Ancestry
  import opened DagTypes
  import opened Search

  /** The least height of a decision met by the search from `ps`. */
  ghost function Cut(g: Graph, D: set<VertexHash>, ps: seq<VertexHash>): nat
    requires Grounded(g) && AllInserted(g, ps)
  {
    MinOf(set x | x in OpenAll(g, D, ps) && x in D :: g[x].height)
  }

  /** The vertices an unobstructed search from `ps` returns when `D` is decided. */
  ghost function Active(g: Graph, D: set<VertexHash>, ps: seq<VertexHash>): set<VertexHash>
    requires Grounded(g) && AllInserted(g, ps)
  {
    set a | a in AncestorsOfParents(g, ps, Cut(g, D, ps)) + Elements(ps) && a !in D
  }

  /** The undecided constraints an unobstructed search returns. */
  ghost function OpenConstraints(g: Graph, st: State, ps: seq<VertexHash>): set<Constraint>
    requires Grounded(g) && AllInserted(g, ps)
  {
    set c | c in Committed(g, Active(g, DecidedIn(g, st), ps)) + PC(ps) && Undecided(st, c)
  }

  ghost predicate Antichain(g: Graph, ps: seq<VertexHash>)
    requires Grounded(g) && AllInserted(g, ps)
  {
    forall p, q :: p in ps && q in ps ==> p !in Anc(g, q)
  }

  lemma CutBelow(g: Graph, D: set<VertexHash>, ps: seq<VertexHash>, x: VertexHash)
    requires Grounded(g) && AllInserted(g, ps) && Rooted(g, D)
    requires x in OpenAll(g, D, ps)
    ensures Cut(g, D, ps) <= g[x].height
  {
    var y := OpenHitsDecided(g, D, x);
    var p :| p in ps && x in Open(g, D, p);
    OpenTrans(g, D, p, x);
    OpenInOpenAll(g, D, ps, p);
    var heights := set x | x in OpenAll(g, D, ps) && x in D :: g[x].height;
    assert g[y].height in heights;
  }

  lemma CutIsLeast(g: Graph, st: State, ps: seq<VertexHash>, k: nat)
    requires Grounded(g) && AllInserted(g, ps)
    requires IsLeastDecided(g, DecidedIn(g, st), OpenAll(g, DecidedIn(g, st), ps), k)
    ensures k == Cut(g, DecidedIn(g, st), ps)
  {
    var D := DecidedIn(g, st);
    var heights := set x | x in OpenAll(g, D, ps) && x in D :: g[x].height;
    assert k in heights;
  }

  /** Despite the cut-off, a parent shows up among the gathered vertices exactly when it is a
      strict ancestor of another parent, whatever has been decided. */
  lemma ParentGathered(g: Graph, D: set<VertexHash>, ps: seq<VertexHash>)
    requires Grounded(g) && AllInserted(g, ps) && Rooted(g, D)
    ensures (exists p :: p in ps && p in AncestorsOfParents(g, ps, Cut(g, D, ps))) <==> !Antichain(g, ps)
  {
    var k := Cut(g, D, ps);
    forall p, q | p in ps && q in ps && p in Anc(g, q)
      ensures p in AncestorsOfParents(g, ps, k)
    {
      OpenInOpenAll(g, D, ps, p);
      CutBelow(g, D, ps, p);
      GatherComplete(g, q, k, p);
    }
    if p :| p in ps && p in AncestorsOfParents(g, ps, k) {
      var q :| q in ps && p in GatherAncestors(g, q, k);
      GatherSound(g, q, k, p);
    }
  }

  /** The three outcomes of the search for the active ancestors of a vertex whose parents are
      inserted. */
  lemma SearchOutcome(known: Graph, g: Graph, st: State, ps: seq<VertexHash>)
    requires Grounded(g) && ps != [] && AllInserted(g, ps) && AllInserted(known, ps)
    requires Rooted(g, DecidedIn(g, st))
    ensures ActiveAncestors(known, g, st, ps) ==
            if HitsRejected(st, OpenAll(g, DecidedIn(g, st), ps)) then Err(RejectedAncestor)
            else if !Antichain(g, ps) then Err(SelfReferentialParent)
            else Ok(Active(g, DecidedIn(g, st), ps))
  {
    SearchHeightMeaning(g, st, ps);
    match SearchHeight(g, st, ps)
    case Err(_) =>
    case Ok(k) =>
      CutIsLeast(g, st, ps, k);
      ParentGathered(g, DecidedIn(g, st), ps);
      UndecidedOfGathered(g, st, ps);
  }

  lemma UndecidedOfGathered(g: Graph, st: State, ps: seq<VertexHash>)
    requires Grounded(g) && AllInserted(g, ps)
    ensures (set a | a in AncestorsOfParents(g, ps, Cut(g, DecidedIn(g, st), ps)) + Elements(ps) &&
        Undecided(st, Unity(a)))
         == Active(g, DecidedIn(g, st), ps)
  {
    forall a | a in AncestorsOfParents(g, ps, Cut(g, DecidedIn(g, st), ps)) + Elements(ps)
      ensures a in g
    {
      if a !in ps { GatheredInGraph(g, ps, Cut(g, DecidedIn(g, st), ps), a); }
    }
  }

  lemma GatheredInGraph(g: Graph, ps: seq<VertexHash>, k: nat, a: VertexHash)
    requires Grounded(g) && AllInserted(g, ps) && a in AncestorsOfParents(g, ps, k)
    ensures a in g && exists p :: p in ps && a in Anc(g, p)
  {
    var p :| p in ps && a in GatherAncestors(g, p, k);
    GatherSound(g, p, k, a);
  }

  // ----- soundness and completeness -----

  lemma ActiveSound(g: Graph, D: set<VertexHash>, ps: seq<VertexHash>, a: VertexHash)
    requires Grounded(g) && AllInserted(g, ps) && a in Active(g, D, ps)
    ensures a in g && a !in D && exists p :: p in ps && a in AncEq(g, p)
  {
    if a !in ps {
      GatheredInGraph(g, ps, Cut(g, D, ps), a);
    } else {
      assert a in AncEq(g, a);
    }
  }

  /** Everything reached through undecided vertices only is returned ... */
  lemma ActiveComplete(g: Graph, D: set<VertexHash>, ps: seq<VertexHash>, a: VertexHash)
    requires Grounded(g) && AllInserted(g, ps) && Rooted(g, D)
    requires a in OpenAll(g, D, ps) && a !in D
    ensures a in Active(g, D, ps)
  {
    var p :| p in ps && a in Open(g, D, p);
    if a != p {
      CutBelow(g, D, ps, a);
      GatherComplete(g, p, Cut(g, D, ps), a);
    }
  }

  ghost predicate AncestorsClosed(g: Graph, D: set<VertexHash>, ps: seq<VertexHash>)
    requires Grounded(g) && AllInserted(g, ps)
  {
    forall p :: p in ps ==> AncestorClosed(g, D, p)
  }

  /** ... which is every undecided ancestor when decisions are closed under ancestors. */
  lemma ActiveExact(g: Graph, D: set<VertexHash>, ps: seq<VertexHash>, a: VertexHash)
    requires Grounded(g) && AllInserted(g, ps) && Rooted(g, D) && AncestorsClosed(g, D, ps)
    ensures a in Active(g, D, ps) <==> a !in D && exists p :: p in ps && a in AncEq(g, p)
  {
    if a in Active(g, D, ps) {
      ActiveSound(g, D, ps, a);
    }
    if p :| a !in D && p in ps && a in AncEq(g, p) {
      UndecidedIsOpen(g, D, p, a);
      OpenInOpenAll(g, D, ps, p);
      ActiveComplete(g, D, ps, a);
    }
  }

  // ----- monotonicity -----

  lemma GatherAntitone(g: Graph, ps: seq<VertexHash>, k: nat, k': nat)
    requires Grounded(g) && AllInserted(g, ps) && k <= k'
    ensures AncestorsOfParents(g, ps, k') <= AncestorsOfParents(g, ps, k)
  {
    forall a | a in AncestorsOfParents(g, ps, k')
      ensures a in AncestorsOfParents(g, ps, k)
    {
      var p :| p in ps && a in GatherAncestors(g, p, k');
      GatherMeaning(g, p, k', a);
      GatherMeaning(g, p, k, a);
    }
  }

  lemma CutMonotone(g: Graph, D: set<VertexHash>, D': set<VertexHash>, ps: seq<VertexHash>)
    requires Grounded(g) && AllInserted(g, ps) && Rooted(g, D) && D <= D' && ps != []
    ensures Cut(g, D, ps) <= Cut(g, D', ps)
  {
    var heights := set x | x in OpenAll(g, D', ps) && x in D' :: g[x].height;
    assert heights != {} by {
      var y := OpenHitsDecided(g, D', ps[0]);
      OpenInOpenAll(g, D', ps, ps[0]);
      assert g[y].height in heights;
    }
    var x :| x in OpenAll(g, D', ps) && x in D' && g[x].height == Cut(g, D', ps);
    var p :| p in ps && x in Open(g, D', p);
    OpenShrinks(g, D, D', p);
    OpenInOpenAll(g, D, ps, p);
    CutBelow(g, D, ps, x);
  }

  lemma OpenInherited(g: Graph, D: set<VertexHash>, ps: seq<VertexHash>, w: VertexHash)
    requires Grounded(g) && AllInserted(g, ps)
    requires w in OpenAll(g, D, ps) && w !in D
    ensures AllInserted(g, g[w].parents)
    ensures OpenAll(g, D, g[w].parents) <= OpenAll(g, D, ps)
  {
    assert ParentsBelow(g, g[w]);
    var p :| p in ps && w in Open(g, D, p);
    OpenTrans(g, D, p, w);
    OpenInOpenAll(g, D, ps, p);
    assert Open(g, D, w) == {w} + OpenAll(g, D, g[w].parents);
  }

  lemma GatherFromAbove(g: Graph, p: VertexHash, w: VertexHash, q: VertexHash, k: nat, k': nat, a: VertexHash)
    requires Grounded(g) && p in g && w in AncEq(g, p) && q in g[w].parents && q in g
    requires k <= k' && a in GatherAncestors(g, q, k')
    ensures a in GatherAncestors(g, p, k)
  {
    GatherMeaning(g, q, k', a);
    var y :| y in AncEq(g, q) && g[y].height > k' && a in g[y].parents;
    AncEqOfParent(g, w, q);
    if w != p { AncTrans(g, y, w, p); }
    GatherMeaning(g, p, k, a);
  }

  lemma GatheredInherited(g: Graph, D: set<VertexHash>, ps: seq<VertexHash>, w: VertexHash, k: nat, k': nat,
                          a: VertexHash)
    requires Grounded(g) && AllInserted(g, ps) && w in OpenAll(g, D, ps) && AllInserted(g, g[w].parents)
    requires k <= k' && a in AncestorsOfParents(g, g[w].parents, k')
    ensures a in AncestorsOfParents(g, ps, k)
  {
    hide GatherAncestors, Open, AncEq, Anc;
    var p :| p in ps && w in Open(g, D, p);
    var q :| q in g[w].parents && a in GatherAncestors(g, q, k');
    GatherFromAbove(g, p, w, q, k, k', a);
  }

  /** Whatever is active for a vertex reached through undecided ones is active for the vertex
      the search started from. */
  lemma ActiveInherited(g: Graph, D: set<VertexHash>, ps: seq<VertexHash>, w: VertexHash)
    requires Grounded(g) && AllInserted(g, ps) && Rooted(g, D)
    requires w in OpenAll(g, D, ps) && w !in D && g[w].parents != []
    ensures AllInserted(g, g[w].parents)
    ensures OpenAll(g, D, g[w].parents) <= OpenAll(g, D, ps)
    ensures Active(g, D, g[w].parents) <= Active(g, D, ps)
  {
    var qs := g[w].parents;
    OpenInherited(g, D, ps, w);
    CutInherited(g, D, ps, qs);
    hide Cut, OpenAll, AncestorsOfParents;
    forall a | a in Active(g, D, qs)
      ensures a in Active(g, D, ps)
    {
      if a in qs {
        OpenInOpenAll(g, D, qs, a);
        ActiveComplete(g, D, ps, a);
      } else {
        GatheredInherited(g, D, ps, w, Cut(g, D, ps), Cut(g, D, qs), a);
      }
    }
  }

  lemma CutInherited(g: Graph, D: set<VertexHash>, ps: seq<VertexHash>, qs: seq<VertexHash>)
    requires Grounded(g) && AllInserted(g, ps) && AllInserted(g, qs) && Rooted(g, D) && qs != []
    requires OpenAll(g, D, qs) <= OpenAll(g, D, ps)
    ensures Cut(g, D, ps) <= Cut(g, D, qs)
  {
    var heights := set x | x in OpenAll(g, D, qs) && x in D :: g[x].height;
    assert heights != {} by {
      var y := OpenHitsDecided(g, D, qs[0]);
      OpenInOpenAll(g, D, qs, qs[0]);
      assert g[y].height in heights;
    }
    var x :| x in OpenAll(g, D, qs) && x in D && g[x].height == Cut(g, D, qs);
    CutBelow(g, D, ps, x);
  }

  // ----- growing the graph -----

  lemma {:induction false} OpenStable(g: Graph, g': Graph, D: set<VertexHash>, D': set<VertexHash>, h: VertexHash)
    requires Grounded(g) && Grounded(g') && Extends(g, g') && h in g
    requires forall x :: x in g ==> (x in D <==> x in D')
    ensures Open(g, D, h) == Open(g', D', h)
    decreases g[h].height
  {
    assert ParentsBelow(g, g[h]);
    forall p | p in g[h].parents
      ensures Open(g, D, p) == Open(g', D', p)
    {
      OpenStable(g, g', D, D', p);
    }
  }

  lemma {:induction false} GatherStable(g: Graph, g': Graph, h: VertexHash, k: nat)
    requires Grounded(g) && Grounded(g') && Extends(g, g') && h in g
    ensures GatherAncestors(g, h, k) == GatherAncestors(g', h, k)
    decreases g[h].height
  {
    assert ParentsBelow(g, g[h]);
    forall p | p in g[h].parents
      ensures GatherAncestors(g, p, k) == GatherAncestors(g', p, k)
    {
      GatherStable(g, g', p, k);
    }
  }

  lemma OpenAllStable(g: Graph, g': Graph, D: set<VertexHash>, D': set<VertexHash>, ps: seq<VertexHash>)
    requires Grounded(g) && Grounded(g') && Extends(g, g') && AllInserted(g, ps)
    requires forall x :: x in g ==> (x in D <==> x in D')
    ensures AllInserted(g', ps)
    ensures OpenAll(g, D, ps) == OpenAll(g', D', ps)
    ensures Cut(g, D, ps) == Cut(g', D', ps)
  {
    forall p | p in ps
      ensures Open(g, D, p) == Open(g', D', p)
    {
      OpenStable(g, g', D, D', p);
    }
    HeightsSame(g, g', D, D', OpenAll(g, D, ps));
  }

  lemma HeightsSame(g: Graph, g': Graph, D: set<VertexHash>, D': set<VertexHash>, S: set<VertexHash>)
    requires Extends(g, g') && forall x :: x in S ==> x in g
    requires forall x :: x in g ==> (x in D <==> x in D')
    ensures forall x :: x in S ==> x in g'
    ensures (set x | x in S && x in D :: g[x].height) == (set x | x in S && x in D' :: g'[x].height)
  {
  }

  lemma GatheredStable(g: Graph, g': Graph, ps: seq<VertexHash>, k: nat)
    requires Grounded(g) && Grounded(g') && Extends(g, g') && AllInserted(g, ps) && AllInserted(g', ps)
    ensures AncestorsOfParents(g, ps, k) == AncestorsOfParents(g', ps, k)
  {
    forall p | p in ps
      ensures GatherAncestors(g, p, k) == GatherAncestors(g', p, k)
    {
      GatherStable(g, g', p, k);
    }
  }

  lemma ActiveStable(g: Graph, g': Graph, D: set<VertexHash>, D': set<VertexHash>, ps: seq<VertexHash>)
    requires Grounded(g) && Grounded(g') && Extends(g, g') && AllInserted(g, ps)
    requires forall x :: x in g ==> (x in D <==> x in D')
    ensures AllInserted(g', ps)
    ensures OpenAll(g, D, ps) == OpenAll(g', D', ps)
    ensures Active(g, D, ps) == Active(g', D', ps)
  {
    OpenAllStable(g, g', D, D', ps);
    GatheredStable(g, g', ps, Cut(g, D, ps));
    forall a | a in AncestorsOfParents(g, ps, Cut(g, D, ps))
      ensures a in g
    {
      GatheredInGraph(g, ps, Cut(g, D, ps), a);
    }
  }

  lemma AntichainStable(g: Graph, g': Graph, ps: seq<VertexHash>)
    requires Grounded(g) && Grounded(g') && Extends(g, g') && AllInserted(g, ps)
    ensures AllInserted(g', ps) && (Antichain(g, ps) <==> Antichain(g', ps))
  {
    forall q | q in ps
      ensures Anc(g, q) == Anc(g', q)
    {
      AncStable(g, g', q);
    }
  }
}

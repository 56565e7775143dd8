/**
 The height-bounded ancestor search (src/consensus/dag.rs: `get_active_ancestors`,
 `get_active_ancestor_constraints`), measured against plain reachability.
 */
module Search {
  import opened Wrappers
  import opened Vertices
  import opened Ancestry
  import opened DagTypes

  /** `u64::MAX`, the neutral element of the source's minimum; only a parentless undecided
      vertex could ever produce it. */
  const NO_HEIGHT: nat := 0xFFFF_FFFF_FFFF_FFFF

  predicate Least(s: set<nat>, m: nat) {
    m in s && forall x :: x in s ==> m <= x
  }

  function MinOf(s: set<nat>): (m: nat)
    ensures s != {} ==> m in s && forall x :: x in s ==> m <= x
    ensures s == {} ==> m == NO_HEIGHT
  {
    if s == {} then NO_HEIGHT
    else
      MinExists(s);
      LeastUnique(s);
      var m :| Least(s, m);
      m
  }

  lemma LeastUnique(s: set<nat>)
    ensures forall m, n :: Least(s, m) && Least(s, n) ==> m == n
  {
  }

  lemma {:induction false} MinExists(s: set<nat>)
    requires s != {}
    ensures exists m :: Least(s, m)
    decreases |s|
  {
    var x :| x in s;
    if s == {x} {
      assert Least(s, x);
    } else {
      MinExists(s - {x});
      var m :| Least(s - {x}, m);
      assert s == s - {x} + {x};
      assert Least(s, if x <= m then x else m);
    }
  }

  /** Parallel minimum over branch results; one failed branch fails the whole. */
  function LeastHeight(rs: set<Result<nat, Error>>): (least: Result<nat, Error>)
    ensures least.Err? <==> exists r :: r in rs && r.Err?
    ensures least.Ok? && rs != {} ==> least in rs && forall r :: r in rs ==> r.Ok? && least.value <= r.value
    ensures least.Err? ==> least.error == RejectedAncestor
  {
    if exists r :: r in rs && r.Err? then Err(RejectedAncestor)
    else
      var values := set r | r in rs && r.Ok? :: r.value;
      assert forall r :: r in rs ==> r.Ok? && r.value in values;
      Ok(MinOf(values))
  }

  /** The greatest height below which every ancestor at this branch has been decided. */
  function DecidedHeight(g: Graph, st: State, h: VertexHash): Result<nat, Error>
    requires Grounded(g) && h in g
    decreases g[h].height
  {
    assert ParentsBelow(g, g[h]);
    match Dec(st, Unity(h))
    case Some(false) => Err(RejectedAncestor)
    case Some(true) => Ok(g[h].height)
    case None => LeastHeight(set p | p in g[h].parents :: DecidedHeight(g, st, p))
  }

  /** Ancestors of `h` back to the given height. */
  function GatherAncestors(g: Graph, h: VertexHash, toHeight: nat): set<VertexHash>
    requires Grounded(g) && h in g
    decreases g[h].height
  {
    assert ParentsBelow(g, g[h]);
    if g[h].height > toHeight then
      Elements(g[h].parents) + set p, a | p in g[h].parents && a in GatherAncestors(g, p, toHeight) :: a
    else {}
  }

  predicate AllInserted(g: Graph, ps: seq<VertexHash>) {
    forall p :: p in ps ==> p in g
  }

  function SearchHeight(g: Graph, st: State, ps: seq<VertexHash>): Result<nat, Error>
    requires Grounded(g) && AllInserted(g, ps)
  {
    LeastHeight(set p | p in ps :: DecidedHeight(g, st, p))
  }

  function AncestorsOfParents(g: Graph, ps: seq<VertexHash>, toHeight: nat): set<VertexHash>
    requires Grounded(g) && AllInserted(g, ps)
  {
    set p, a | p in ps && a in GatherAncestors(g, p, toHeight) :: a
  }

  /** The undecided ancestors of a vertex with parents `ps`, back to the height from which on
      everything is decided.  The source panics on an empty parent list, and on a parent that
      is known but not inserted. */
  function ActiveAncestors(known: Graph, g: Graph, st: State, ps: seq<VertexHash>): Result<set<VertexHash>, Error>
    requires Grounded(g) && ps != [] && forall p :: p in ps && p in known ==> p in g
  {
    if exists p :: p in ps && p !in known then Err(NotFound)
    else
      match SearchHeight(g, st, ps)
      case Err(e) => Err(e)
      case Ok(toHeight) =>
        var ancestors := AncestorsOfParents(g, ps, toHeight);
        if exists p :: p in ps && p in ancestors then Err(SelfReferentialParent)
        else Ok(set a | a in ancestors + Elements(ps) && Undecided(st, Unity(a)))
  }

  /** The undecided constraints committed to by a vertex and its active ancestors. */
  function ActiveConstraints(known: Graph, g: Graph, st: State, v: Vertex): Result<set<Constraint>, Error>
    requires Grounded(g) && v.parents != [] && forall p :: p in v.parents && p in known ==> p in g
  {
    match ActiveAncestors(known, g, st, v.parents)
    case Err(e) => Err(e)
    case Ok(active) => Ok(set c | c in Committed(g, active) + PC(v.parents) && Undecided(st, c))
  }

  function Committed(g: Graph, active: set<VertexHash>): set<Constraint> {
    set a, c | a in active && a in g && c in PC(g[a].parents) :: c
  }

  // ----- reachability through undecided vertices -----

  ghost function DecidedIn(g: Graph, st: State): set<VertexHash> {
    set h | h in g && !Undecided(st, Unity(h))
  }

  /** The vertices reached from `h` by passing through vertices outside `D` only. */
  ghost function Open(g: Graph, D: set<VertexHash>, h: VertexHash): (r: set<VertexHash>)
    requires Grounded(g) && h in g
    ensures h in r && r <= AncEq(g, h)
    decreases g[h].height
  {
    assert ParentsBelow(g, g[h]);
    {h} + if h in D then {} else set p, x | p in g[h].parents && x in Open(g, D, p) :: x
  }

  ghost function OpenAll(g: Graph, D: set<VertexHash>, ps: seq<VertexHash>): (r: set<VertexHash>)
    requires Grounded(g) && AllInserted(g, ps)
    ensures forall x :: x in r ==> x in g
  {
    set p, x | p in ps && x in Open(g, D, p) :: x
  }

  /** Every vertex without parents is decided; in a run only genesis has none. */
  ghost predicate Rooted(g: Graph, D: set<VertexHash>) {
    forall h :: h in g && g[h].parents == [] ==> h in D
  }

  lemma {:induction false} OpenTrans(g: Graph, D: set<VertexHash>, h: VertexHash, x: VertexHash)
    requires Grounded(g) && h in g && x in Open(g, D, h)
    ensures Open(g, D, x) <= Open(g, D, h)
    decreases g[h].height
  {
    assert ParentsBelow(g, g[h]);
    if x != h {
      var p :| p in g[h].parents && x in Open(g, D, p);
      OpenTrans(g, D, p, x);
    }
  }

  lemma {:induction false} OpenShrinks(g: Graph, D: set<VertexHash>, D': set<VertexHash>, h: VertexHash)
    requires Grounded(g) && h in g && D <= D'
    ensures Open(g, D', h) <= Open(g, D, h)
    decreases g[h].height
  {
    assert ParentsBelow(g, g[h]);
    if h !in D' {
      forall p | p in g[h].parents ensures Open(g, D', p) <= Open(g, D, p) { OpenShrinks(g, D, D', p); }
    }
  }

  /** Every downward search ends in a decided vertex. */
  lemma {:induction false} OpenHitsDecided(g: Graph, D: set<VertexHash>, h: VertexHash) returns (x: VertexHash)
    requires Grounded(g) && Rooted(g, D) && h in g
    ensures x in Open(g, D, h) && x in D && x in g && g[x].height <= g[h].height
    decreases g[h].height
  {
    assert ParentsBelow(g, g[h]);
    if h in D {
      x := h;
    } else {
      var p := g[h].parents[0];
      assert p in g[h].parents;
      x := OpenHitsDecided(g, D, p);
    }
  }

  /** Among `h` and its ancestors, whatever is decided has all its ancestors decided. */
  ghost predicate AncestorClosed(g: Graph, D: set<VertexHash>, h: VertexHash)
    requires Grounded(g) && h in g
  {
    forall y, a :: y in AncEq(g, h) && y in D && a in Anc(g, y) ==> a in D
  }

  lemma {:induction false} UndecidedIsOpen(g: Graph, D: set<VertexHash>, h: VertexHash, x: VertexHash)
    requires Grounded(g) && h in g && AncestorClosed(g, D, h) && x in AncEq(g, h) && x !in D
    ensures x in Open(g, D, h)
    decreases g[h].height
  {
    assert ParentsBelow(g, g[h]);
    if x != h {
      var p := AncViaParent(g, x, h);
      UndecidedIsOpen(g, D, p, x);
      assert h in AncEq(g, h) && h !in D;
    }
  }

  // ----- what the search height is -----

  /** `k` is the least height of a decided vertex in `S`. */
  ghost predicate IsLeastDecided(g: Graph, D: set<VertexHash>, S: set<VertexHash>, k: nat) {
    && (exists x :: x in S && x in D && x in g && g[x].height == k)
    && (forall x :: x in S && x in D && x in g ==> k <= g[x].height)
  }

  ghost predicate HitsRejected(st: State, S: set<VertexHash>) {
    exists x :: x in S && Rejected(st, Unity(x))
  }

  /** What a search over the vertices `S` has to report: failure if it contains a rejected
      vertex, and the least height of a decided one otherwise. */
  ghost predicate Reports(g: Graph, st: State, S: set<VertexHash>, r: Result<nat, Error>) {
    match r
    case Err(e) => e == RejectedAncestor && HitsRejected(st, S)
    case Ok(k) => !HitsRejected(st, S) && IsLeastDecided(g, DecidedIn(g, st), S, k)
  }

  /** The recursion fails exactly when it reaches a rejected vertex through undecided ones, and
      otherwise yields the least height at which it met a decision. */
  lemma {:induction false} DecidedHeightMeaning(g: Graph, st: State, h: VertexHash)
    requires Grounded(g) && h in g && Rooted(g, DecidedIn(g, st))
    ensures Reports(g, st, Open(g, DecidedIn(g, st), h), DecidedHeight(g, st, h))
    decreases g[h].height
  {
    var D := DecidedIn(g, st);
    var ps := g[h].parents;
    assert ParentsBelow(g, g[h]);
    if h !in D {
      forall p | p in ps
        ensures Reports(g, st, Open(g, D, p), DecidedHeight(g, st, p))
      {
        DecidedHeightMeaning(g, st, p);
      }
      LeastOfBranches(g, st, ps);
      assert Open(g, D, h) == {h} + OpenAll(g, D, ps);
      ReportsOneMore(g, st, OpenAll(g, D, ps), h, SearchHeight(g, st, ps));
    } else {
      assert Open(g, D, h) == {h};
    }
  }

  lemma ReportsOneMore(g: Graph, st: State, S: set<VertexHash>, h: VertexHash, r: Result<nat, Error>)
    requires Reports(g, st, S, r) && Undecided(st, Unity(h))
    ensures Reports(g, st, {h} + S, r)
  {
  }

  lemma OpenInOpenAll(g: Graph, D: set<VertexHash>, ps: seq<VertexHash>, p: VertexHash)
    requires Grounded(g) && AllInserted(g, ps) && p in ps
    ensures Open(g, D, p) <= OpenAll(g, D, ps)
  {
  }

  lemma FailedBranch(g: Graph, st: State, ps: seq<VertexHash>, p: VertexHash)
    requires Grounded(g) && AllInserted(g, ps) && p in ps && DecidedHeight(g, st, p).Err?
    requires Reports(g, st, Open(g, DecidedIn(g, st), p), DecidedHeight(g, st, p))
    ensures HitsRejected(st, OpenAll(g, DecidedIn(g, st), ps))
  {
    hide Open, DecidedIn;
    OpenInOpenAll(g, DecidedIn(g, st), ps, p);
  }

  lemma LeastOfBranches(g: Graph, st: State, ps: seq<VertexHash>)
    requires Grounded(g) && AllInserted(g, ps) && ps != []
    requires forall p :: p in ps ==> Reports(g, st, Open(g, DecidedIn(g, st), p), DecidedHeight(g, st, p))
    ensures Reports(g, st, OpenAll(g, DecidedIn(g, st), ps), SearchHeight(g, st, ps))
  {
    hide HitsRejected, Open, DecidedIn, DecidedHeight, Grounded;
    var rs := set p | p in ps :: DecidedHeight(g, st, p);
    assert DecidedHeight(g, st, ps[0]) in rs;
    var least := LeastHeight(rs);
    if least.Err? {
      var r :| r in rs && r.Err?;
      var p :| p in ps && r == DecidedHeight(g, st, p);
      FailedBranch(g, st, ps, p);
    } else {
      assert forall p :: p in ps ==> DecidedHeight(g, st, p) in rs;
      var p :| p in ps && DecidedHeight(g, st, p) == least;
      LeastOfOkBranches(g, st, ps, p);
    }
  }

  lemma LeastOfOkBranches(g: Graph, st: State, ps: seq<VertexHash>, p: VertexHash)
    requires Grounded(g) && AllInserted(g, ps) && p in ps
    requires DecidedHeight(g, st, p).Ok?
    requires forall q :: q in ps ==> Reports(g, st, Open(g, DecidedIn(g, st), q), DecidedHeight(g, st, q))
    requires forall q :: q in ps ==> DecidedHeight(g, st, q).Ok? &&
                                     DecidedHeight(g, st, p).value <= DecidedHeight(g, st, q).value
    ensures Reports(g, st, OpenAll(g, DecidedIn(g, st), ps), DecidedHeight(g, st, p))
  {
    var D, k := DecidedIn(g, st), DecidedHeight(g, st, p).value;
    forall y | y in OpenAll(g, D, ps)
      ensures !Rejected(st, Unity(y))
      ensures y in D && y in g ==> k <= g[y].height
    {
      var q :| q in ps && y in Open(g, D, q);
      assert Reports(g, st, Open(g, D, q), DecidedHeight(g, st, q));
    }
    var x :| x in Open(g, D, p) && x in D && x in g && g[x].height == k;
    assert x in OpenAll(g, D, ps);
  }

  lemma SearchHeightMeaning(g: Graph, st: State, ps: seq<VertexHash>)
    requires Grounded(g) && AllInserted(g, ps) && ps != [] && Rooted(g, DecidedIn(g, st))
    ensures Reports(g, st, OpenAll(g, DecidedIn(g, st), ps), SearchHeight(g, st, ps))
  {
    forall p | p in ps
      ensures Reports(g, st, Open(g, DecidedIn(g, st), p), DecidedHeight(g, st, p))
    {
      DecidedHeightMeaning(g, st, p);
    }
    LeastOfBranches(g, st, ps);
  }

  // ----- what the cut-off gathers -----

  /** The gathered vertices are the parents of every vertex above the cut, no path condition. */
  lemma {:induction false} GatherMeaning(g: Graph, h: VertexHash, k: nat, a: VertexHash)
    requires Grounded(g) && h in g
    ensures a in GatherAncestors(g, h, k) <==>
            exists y :: y in AncEq(g, h) && g[y].height > k && a in g[y].parents
    decreases g[h].height
  {
    assert ParentsBelow(g, g[h]);
    if a in GatherAncestors(g, h, k) {
      if a in g[h].parents {
        assert h in AncEq(g, h);
      } else {
        var p :| p in g[h].parents && a in GatherAncestors(g, p, k);
        GatherMeaning(g, p, k, a);
        var y :| y in AncEq(g, p) && g[y].height > k && a in g[y].parents;
        AncEqOfParent(g, h, p);
        assert y in AncEq(g, h);
      }
    }
    forall y | y in AncEq(g, h) && g[y].height > k && a in g[y].parents
      ensures a in GatherAncestors(g, h, k)
    {
      if y != h {
        var p := AncViaParent(g, y, h);
        GatherMeaning(g, p, k, a);
      }
    }
  }

  /** Every strict ancestor at or above the cut is gathered. */
  lemma GatherComplete(g: Graph, h: VertexHash, k: nat, a: VertexHash)
    requires Grounded(g) && h in g && a in Anc(g, h) && k <= g[a].height
    ensures a in GatherAncestors(g, h, k)
  {
    var z := AncHasChild(g, a, h);
    assert ParentsBelow(g, g[z]);
    GatherMeaning(g, h, k, a);
  }

  lemma GatherSound(g: Graph, h: VertexHash, k: nat, a: VertexHash)
    requires Grounded(g) && h in g && a in GatherAncestors(g, h, k)
    ensures a in Anc(g, h)
  {
    GatherMeaning(g, h, k, a);
    var y :| y in AncEq(g, h) && g[y].height > k && a in g[y].parents;
    if y != h {
      AncEqOfParent(g, y, a);
      AncTrans(g, a, y, h);
    }
  }
}

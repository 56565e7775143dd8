/**
 Vertices and the ordering constraints they commit to (src/consensus/vertex.rs).

 A vertex hash is an abstract, totally ordered identifier.  The hash of a vertex is carried
 as a field: hashing is assumed collision free, so the hash determines the other fields.
 */
module Vertices {
  import opened Wrappers

  const VERSION: nat := 1

  type VertexHash = nat

  datatype Vertex = Vertex(hash: VertexHash, version: nat, height: nat, parents: seq<VertexHash>)

  datatype VertexError =
    | BadVersion(expected: nat, found: nat)
    | MissingField(name: string)
    | DuplicateParents

  // ----- constraints -----

  /** `left` is constrained to come before `right` in the total order of vertices. */
  datatype Constraint = Constraint(left: VertexHash, right: VertexHash) {

    predicate IsUnity() {
      left == right
    }

    /** The opposite order; a unity constraint is its own flip. */
    function Flip(): Constraint {
      Constraint(right, left)
    }

    /** The constraint this one conflicts with, if any. */
    function Conflict(): Option<Constraint> {
      if IsUnity() then None else Some(Flip())
    }

    /** The key of the conflict set this constraint belongs to. */
    function Key(): ConflictSetKey {
      if left < right then ConflictSetKey(left, right) else ConflictSetKey(right, left)
    }
  }

  datatype ConflictSetKey = ConflictSetKey(lt: VertexHash, gt: VertexHash)

  function Unity(h: VertexHash): Constraint {
    Constraint(h, h)
  }

  /** Two constraints share a conflict set exactly when they are equal or opposite. */
  lemma KeyIdentifiesConflictSet(c: Constraint, d: Constraint)
    ensures c.Key() == d.Key() <==> c == d || c.Conflict() == Some(d)
  {
    assert c == Constraint(c.left, c.right) && d == Constraint(d.left, d.right);
  }

  // ----- parent lists -----

  ghost predicate Distinct<T>(s: seq<T>) {
    forall i, j :: 0 <= i < j < |s| ==> s[i] != s[j]
  }

  function Elements<T>(s: seq<T>): set<T> {
    set x | x in s
  }

  /** Comparing the number of different items with the length detects a repetition. */
  lemma {:induction false} CardinalityDetectsDuplicates<T>(s: seq<T>)
    ensures |Elements(s)| <= |s|
    ensures |Elements(s)| == |s| <==> Distinct(s)
  {
    if s == [] {
    } else {
      var x, t := s[|s| - 1], s[..|s| - 1];
      CardinalityDetectsDuplicates(t);
      assert s == t + [x];
      assert Elements(s) == Elements(t) + {x};
      if x in t {
        assert Elements(s) == Elements(t);
        var i :| 0 <= i < |t| && t[i] == x;
        assert s[i] == s[|s| - 1];
      } else {
        assert |Elements(s)| == |Elements(t)| + 1;
        assert Distinct(t) ==> Distinct(s);
        assert Distinct(s) ==> forall i, j :: 0 <= i < j < |t| ==> t[i] == s[i] && t[j] == s[j];
      }
    }
  }

  /** Checks a vertex on its own.  It passes exactly when its parents form a repetition-free,
      non-empty list and the version is the current one. */
  function SanityChecks(v: Vertex): (r: Result<(), VertexError>)
    ensures r.Ok? <==> v.version == VERSION && v.parents != [] && Distinct(v.parents)
  {
    CardinalityDetectsDuplicates(v.parents);
    if v.version != VERSION then Err(BadVersion(VERSION, v.version))
    else if v.parents == [] then Err(MissingField("parents"))
    else if |v.parents| != |Elements(v.parents)| then Err(DuplicateParents)
    else Ok(())
  }

  // ----- the constraints a vertex commits to -----

  /** The constraints a parent list commits to: each parent before itself and before every
      later parent. */
  function PC(ps: seq<VertexHash>): (r: set<Constraint>)
    ensures forall c :: c in r ==> c.left in ps && c.right in ps
    ensures forall p :: p in ps ==> Unity(p) in r
  {
    if ps == [] then {} else (set q | q in ps :: Constraint(ps[0], q)) + PC(ps[1..])
  }

  /** In terms of positions: exactly the pairs (i, j) with i <= j. */
  lemma {:induction false} PairInPC(ps: seq<VertexHash>, i: nat, j: nat)
    requires i <= j < |ps|
    ensures Constraint(ps[i], ps[j]) in PC(ps)
  {
    if i > 0 {
      PairInPC(ps[1..], i - 1, j - 1);
    }
  }

  lemma {:induction false} PositionsInPC(ps: seq<VertexHash>, c: Constraint) returns (i: nat, j: nat)
    requires c in PC(ps)
    ensures i <= j < |ps| && c == Constraint(ps[i], ps[j])
  {
    if c.left == ps[0] && c.right in ps {
      i := 0;
      j :| 0 <= j < |ps| && ps[j] == c.right;
    } else {
      i, j := PositionsInPC(ps[1..], c);
      i, j := i + 1, j + 1;
    }
  }

  /** A repetition-free parent list commits to one order of every pair, and never to both. */
  lemma OneOrientation(ps: seq<VertexHash>, a: VertexHash, b: VertexHash)
    requires Distinct(ps) && a in ps && b in ps
    ensures Constraint(a, b) in PC(ps) || Constraint(b, a) in PC(ps)
    ensures a != b ==> Constraint(a, b) !in PC(ps) || Constraint(b, a) !in PC(ps)
  {
    var i :| 0 <= i < |ps| && ps[i] == a;
    var j :| 0 <= j < |ps| && ps[j] == b;
    if i <= j { PairInPC(ps, i, j); } else { PairInPC(ps, j, i); }
    if Constraint(a, b) in PC(ps) && Constraint(b, a) in PC(ps) {
      var i1, j1 := PositionsInPC(ps, Constraint(a, b));
      var j2, i2 := PositionsInPC(ps, Constraint(b, a));
      assert i1 == i2 && j1 == j2;
    }
  }

  /** The set of constraints determines the parent list, order included. */
  lemma {:induction false} ConstraintsDetermineParents(ps: seq<VertexHash>, qs: seq<VertexHash>)
    requires Distinct(ps) && Distinct(qs) && PC(ps) == PC(qs)
    ensures ps == qs
  {
    EmptyPC(ps);
    EmptyPC(qs);
    if ps != [] {
      assert Unity(ps[0]) in PC(qs) && Unity(qs[0]) in PC(ps);
      assert Constraint(ps[0], qs[0]) in PC(ps) && Constraint(qs[0], ps[0]) in PC(qs);
      OneOrientation(ps, ps[0], qs[0]);
      ConstraintsDetermineParents(ps[1..], qs[1..]);
      assert ps == [ps[0]] + ps[1..] && qs == [qs[0]] + qs[1..];
    }
  }

  lemma EmptyPC(ps: seq<VertexHash>)
    ensures PC(ps) == {} <==> ps == []
  {
    assert ps == [] || Unity(ps[0]) in PC(ps);
  }

  // ----- the order in which the iterator yields them -----

  /** The pairs of row `i` from column `j` on. */
  ghost function Row(ps: seq<VertexHash>, i: nat, j: nat): seq<Constraint>
    requires i < |ps| && j <= |ps|
  {
    seq(|ps| - j, n requires 0 <= n < |ps| - j => Constraint(ps[i], ps[j + n]))
  }

  /** The pairs still to come once the iterator stands at row `i`, column `j`. */
  ghost function Pairs(ps: seq<VertexHash>, i: nat, j: nat): seq<Constraint>
    decreases |ps| - i
  {
    if i + 1 >= |ps| || j > |ps| then [] else Row(ps, i, j) + Pairs(ps, i + 1, i + 2)
  }

  /** The unities, from the last vertex to the first. */
  ghost function Unities(ps: seq<VertexHash>): seq<Constraint> {
    if ps == [] then [] else [Unity(ps[|ps| - 1])] + Unities(ps[..|ps| - 1])
  }

  /** Everything the iterator yields for a parent list, in order. */
  ghost function ConstraintSeq(ps: seq<VertexHash>): seq<Constraint> {
    Pairs(ps, 0, 1) + Unities(ps)
  }

  lemma PairsStep(ps: seq<VertexHash>, i: nat, j: nat)
    requires i < j < |ps|
    ensures Pairs(ps, i, j) ==
            [Constraint(ps[i], ps[j])] + if j + 1 == |ps| then Pairs(ps, i + 1, i + 2) else Pairs(ps, i, j + 1)
  {
    assert Row(ps, i, j) == [Constraint(ps[i], ps[j])] + Row(ps, i, j + 1);
  }

  lemma NoPairsLeft(ps: seq<VertexHash>, i: nat, j: nat)
    requires i + 1 >= |ps|
    ensures Pairs(ps, i, j) == []
  {
  }

  /** Iterates over the constraints a parent list commits to. */
  class Constraints {
    var vertices: seq<VertexHash>
    var idx1: nat
    var idx2: nat

    ghost predicate Valid()
      reads this
    {
      idx1 + 1 < |vertices| ==> idx1 < idx2 < |vertices|
    }

    /** What is still to be yielded. */
    ghost function Remaining(): seq<Constraint>
      reads this
    {
      Pairs(vertices, idx1, idx2) + Unities(vertices)
    }

    constructor (vertices: seq<VertexHash>)
      ensures Valid() && Remaining() == ConstraintSeq(vertices)
    {
      this.vertices, idx1, idx2 := vertices, 0, 1;
    }

    method Next() returns (item: Option<Constraint>)
      requires Valid()
      modifies this
      ensures Valid()
      ensures item.None? <==> old(Remaining()) == []
      ensures item.Some? ==> old(Remaining()) == [item.value] + Remaining()
      ensures item.None? ==> Remaining() == []
    {
      hide Pairs;
      if idx1 + 1 >= |vertices| {
        NoPairsLeft(vertices, idx1, idx2);
        if vertices == [] {
          return None;
        }
        var last := vertices[|vertices| - 1];
        NoPairsLeft(vertices[..|vertices| - 1], idx1, idx2);
        vertices := vertices[..|vertices| - 1];
        return Some(Unity(last));
      } else {
        var constraint := Constraint(vertices[idx1], vertices[idx2]);
        PairsStep(vertices, idx1, idx2);
        idx2 := idx2 + 1;
        if idx2 == |vertices| {
          idx1 := idx1 + 1;
          idx2 := idx1 + 1;
        }
        return Some(constraint);
      }
    }
  }

  /** Drains the iterator. */
  method ParentConstraints(v: Vertex) returns (cs: seq<Constraint>)
    ensures cs == ConstraintSeq(v.parents)
  {
    var iter := new Constraints(v.parents);
    cs := [];
    var item := iter.Next();
    while item.Some?
      invariant iter.Valid() && fresh(iter)
      invariant item.Some? ==> cs + [item.value] + iter.Remaining() == ConstraintSeq(v.parents)
      invariant item.None? ==> cs == ConstraintSeq(v.parents)
      decreases |iter.Remaining()|, item.Some?
    {
      cs := cs + [item.value];
      item := iter.Next();
    }
  }

  // ----- what the iterator yields -----

  lemma {:induction false} PairAmongPairs(ps: seq<VertexHash>, i: nat, j: nat, c: Constraint) returns (a: nat, b: nat)
    requires i < j && c in Pairs(ps, i, j)
    ensures a < b < |ps| && c == Constraint(ps[a], ps[b]) && (a > i || (a == i && b >= j))
    decreases |ps| - i
  {
    if c in Row(ps, i, j) {
      var n :| 0 <= n < |ps| - j && Row(ps, i, j)[n] == c;
      a, b := i, j + n;
    } else {
      a, b := PairAmongPairs(ps, i + 1, i + 2, c);
    }
  }

  lemma {:induction false} PairsContain(ps: seq<VertexHash>, i: nat, j: nat, a: nat, b: nat)
    requires i < j <= |ps| && a < b < |ps| && (a > i || (a == i && b >= j))
    ensures Constraint(ps[a], ps[b]) in Pairs(ps, i, j)
    decreases |ps| - i
  {
    if a == i {
      assert Row(ps, i, j)[b - j] == Constraint(ps[a], ps[b]);
    } else {
      PairsContain(ps, i + 1, i + 2, a, b);
    }
  }

  lemma {:induction false} PairsDistinct(ps: seq<VertexHash>, i: nat, j: nat)
    requires Distinct(ps) && i < j
    ensures Distinct(Pairs(ps, i, j))
    decreases |ps| - i
  {
    if i + 1 < |ps| && j <= |ps| {
      PairsDistinct(ps, i + 1, i + 2);
      forall c | c in Row(ps, i, j)
        ensures c !in Pairs(ps, i + 1, i + 2)
      {
        if c in Pairs(ps, i + 1, i + 2) { var a, b := PairAmongPairs(ps, i + 1, i + 2, c); }
      }
      ConcatDistinct(Row(ps, i, j), Pairs(ps, i + 1, i + 2));
    }
  }

  lemma {:induction false} PairsLength(ps: seq<VertexHash>, i: nat, j: nat)
    requires i + 1 < |ps| && j <= |ps|
    ensures 2 * |Pairs(ps, i, j)| == 2 * (|ps| - j) + (|ps| - i - 2) * (|ps| - i - 1)
    decreases |ps| - i
  {
    if i + 2 < |ps| {
      PairsLength(ps, i + 1, i + 2);
      TriangleStep(|ps| - i);
    }
  }

  lemma TriangleStep(n: nat)
    ensures 2 * (n - 2) + (n - 3) * (n - 2) == (n - 2) * (n - 1)
  {
  }

  lemma {:induction false} UnitiesContent(ps: seq<VertexHash>)
    ensures |Unities(ps)| == |ps|
    ensures forall c :: c in Unities(ps) <==> c.IsUnity() && c.left in ps
    ensures Distinct(ps) ==> Distinct(Unities(ps))
  {
    if ps == [] {
    } else {
      var last, rest := ps[|ps| - 1], ps[..|ps| - 1];
      UnitiesContent(rest);
      assert ps == rest + [last];
    }
  }

  lemma ConstraintSeqContent(ps: seq<VertexHash>, c: Constraint)
    requires Distinct(ps)
    ensures c in ConstraintSeq(ps) <==> c in PC(ps)
    ensures c in Pairs(ps, 0, 1) ==> c !in Unities(ps)
  {
    UnitiesContent(ps);
    if c in Pairs(ps, 0, 1) {
      var a, b := PairAmongPairs(ps, 0, 1, c);
      PairInPC(ps, a, b);
    }
    if c in PC(ps) && !c.IsUnity() {
      var a, b := PositionsInPC(ps, c);
      PairsContain(ps, 0, 1, a, b);
    }
  }

  lemma ConcatDistinct<T>(s: seq<T>, t: seq<T>)
    requires Distinct(s) && Distinct(t) && forall x :: x in s ==> x !in t
    ensures Distinct(s + t)
  {
    forall i, j | 0 <= i < j < |s + t|
      ensures (s + t)[i] != (s + t)[j]
    {
      assert i < |s| <= j ==> s[i] in s && t[j - |s|] in t;
    }
  }

  lemma ConstraintSeqLength(ps: seq<VertexHash>)
    requires Distinct(ps)
    ensures 2 * |ConstraintSeq(ps)| == |ps| * (|ps| + 1)
  {
    if |ps| > 1 { PairsLength(ps, 0, 1); }
    UnitiesContent(ps);
    var n := |ps|;
    assert n > 1 ==> 2 * (n - 1) + (n - 2) * (n - 1) + 2 * n == n * (n + 1);
  }

  /** For n different parents the iterator yields n(n+1)/2 different constraints, and they are
      exactly the ones the parent list commits to. */
  lemma ConstraintSeqIsPC(ps: seq<VertexHash>)
    requires Distinct(ps)
    ensures 2 * |ConstraintSeq(ps)| == |ps| * (|ps| + 1)
    ensures Distinct(ConstraintSeq(ps))
    ensures Elements(ConstraintSeq(ps)) == PC(ps)
  {
    ConstraintSeqLength(ps);
    assert Distinct(ConstraintSeq(ps)) by {
      PairsDistinct(ps, 0, 1);
      UnitiesContent(ps);
      forall c | c in Pairs(ps, 0, 1) ensures c !in Unities(ps) { ConstraintSeqContent(ps, c); }
      ConcatDistinct(Pairs(ps, 0, 1), Unities(ps));
    }
    forall c ensures c in Elements(ConstraintSeq(ps)) <==> c in PC(ps) { ConstraintSeqContent(ps, c); }
  }

  /** How many pairs the rows from `k` on yield before row `i`. */
  ghost function RowsBefore(n: nat, k: nat, i: nat): nat
    requires k <= i < n
    decreases i - k
  {
    if k == i then 0 else n - 1 - k + RowsBefore(n, k + 1, i)
  }

  lemma {:induction false} PairAt(ps: seq<VertexHash>, k: nat, i: nat, j: nat)
    requires k <= i < j < |ps|
    ensures var at := RowsBefore(|ps|, k, i) + j - i - 1;
            at < |Pairs(ps, k, k + 1)| && Pairs(ps, k, k + 1)[at] == Constraint(ps[i], ps[j])
    decreases i - k
  {
    if k < i { PairAt(ps, k + 1, i, j); }
  }

  lemma {:induction false} UnityAt(ps: seq<VertexHash>, k: nat)
    requires k < |ps|
    ensures |Unities(ps)| == |ps| && Unities(ps)[|ps| - 1 - k] == Unity(ps[k])
    decreases |ps|
  {
    var rest := ps[..|ps| - 1];
    if k < |ps| - 1 { UnityAt(rest, k); } else if rest != [] { UnityAt(rest, 0); }
  }

  /** The order of the sequence: the pairs row by row, then the unities from the last parent to the
      first. */
  lemma ConstraintSeqOrder(ps: seq<VertexHash>, i: nat, j: nat)
    requires i <= j < |ps|
    ensures var cs := ConstraintSeq(ps);
            var at := if i == j then |cs| - 1 - i else RowsBefore(|ps|, 0, i) + j - i - 1;
            0 <= at < |cs| && cs[at] == Constraint(ps[i], ps[j])
  {
    UnityAt(ps, i);
    if i < j { PairAt(ps, 0, i, j); }
  }
}

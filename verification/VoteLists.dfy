/**
 The list of constraints one vote walks: what it contains, that nothing occurs twice, and that
 constraint parents come before their children.
 */
module VoteLists {
  import opened Vertices
  import opened Ancestry
  import opened DagTypes
  import opened Search
  import opened Dags

  lemma {:induction false} UniqueFacts(cs: seq<Constraint>)
    ensures Distinct(Unique(cs))
    ensures forall c :: c in Unique(cs) <==> c in cs
  {
    if cs != [] {
      var rest, last := cs[..|cs| - 1], cs[|cs| - 1];
      UniqueFacts(rest);
      assert cs == rest + [last];
    }
  }

  lemma {:induction false} OnlyUndecidedFacts(st: State, cs: seq<Constraint>)
    requires Distinct(cs)
    ensures Distinct(OnlyUndecided(st, cs))
    ensures forall c :: c in OnlyUndecided(st, cs) <==> c in cs && Undecided(st, c)
  {
    if cs != [] {
      var rest, last := cs[..|cs| - 1], cs[|cs| - 1];
      assert cs == rest + [last];
      OnlyUndecidedFacts(st, rest);
      assert last !in rest;
    }
  }

  lemma ConstraintSeqElements(ps: seq<VertexHash>)
    requires Distinct(ps)
    ensures forall c :: c in ConstraintSeq(ps) <==> c in PC(ps)
  {
    forall c ensures c in ConstraintSeq(ps) <==> c in PC(ps) { ConstraintSeqContent(ps, c); }
  }

  lemma {:induction false} CommitmentsContent(g: Graph, order: seq<VertexHash>, c: Constraint)
    requires forall h :: h in g ==> Distinct(g[h].parents)
    ensures c in Commitments(g, order) <==> c in Committed(g, Elements(order))
  {
    if order != [] {
      var rest, h := order[..|order| - 1], order[|order| - 1];
      assert order == rest + [h];
      assert Elements(order) == Elements(rest) + {h};
      CommitmentsContent(g, rest, c);
      if h in g { ConstraintSeqElements(g[h].parents); }
    }
  }

  /** The walked constraints are the undecided ones committed to by the walked vertices and by
      the voted vertex, and finally the unity of the latter. */
  lemma VoteListContent(g: Graph, st: State, v: Vertex, order: seq<VertexHash>)
    requires forall h :: h in g ==> Distinct(g[h].parents)
    requires Distinct(v.parents)
    ensures forall c :: c in VoteList(g, st, v, order) <==>
              c == Unity(v.hash) || (c in Committed(g, Elements(order)) + PC(v.parents) && Undecided(st, c))
  {
    var all := Commitments(g, order) + ConstraintSeq(v.parents);
    UniqueFacts(all);
    OnlyUndecidedFacts(st, Unique(all));
    ConstraintSeqElements(v.parents);
    forall c
      ensures c in Commitments(g, order) <==> c in Committed(g, Elements(order))
    {
      CommitmentsContent(g, order, c);
    }
  }

  lemma VoteListDistinct(g: Graph, st: State, v: Vertex, order: seq<VertexHash>)
    requires forall h :: h in g ==> Distinct(g[h].parents)
    requires Distinct(v.parents) && Unity(v.hash) !in Committed(g, Elements(order)) + PC(v.parents)
    ensures Distinct(VoteList(g, st, v, order))
    ensures |VoteList(g, st, v, order)| > 0 && VoteList(g, st, v, order)[|VoteList(g, st, v, order)| - 1] ==
        Unity(v.hash)
  {
    var all := Commitments(g, order) + ConstraintSeq(v.parents);
    UniqueFacts(all);
    OnlyUndecidedFacts(st, Unique(all));
    ConstraintSeqElements(v.parents);
    CommitmentsContent(g, order, Unity(v.hash));
    assert Unity(v.hash) !in OnlyUndecided(st, Unique(all));
  }

  // ----- order -----

  /** Every occurrence of `c` comes after an occurrence of `p`. */
  ghost predicate Precedes(cs: seq<Constraint>, p: Constraint, c: Constraint) {
    forall i :: 0 <= i < |cs| && cs[i] == c ==> p in cs[..i]
  }

  lemma PrecedesAppend(cs: seq<Constraint>, ds: seq<Constraint>, p: Constraint, c: Constraint)
    requires Precedes(cs, p, c) && (c in ds ==> p in cs)
    ensures Precedes(cs + ds, p, c)
  {
    forall i | 0 <= i < |cs + ds| && (cs + ds)[i] == c
      ensures p in (cs + ds)[..i]
    {
      if i < |cs| {
        assert (cs + ds)[..i] == cs[..i];
      } else {
        assert c == ds[i - |cs|];
        assert cs <= (cs + ds)[..i];
        assert forall x :: x in cs ==> x in (cs + ds)[..i] by {
          forall x | x in cs ensures x in (cs + ds)[..i] {
            var j :| 0 <= j < |cs| && cs[j] == x;
            assert (cs + ds)[..i][j] == x;
          }
        }
      }
    }
  }

  lemma {:induction false} UniquePrecedes(cs: seq<Constraint>, p: Constraint, c: Constraint)
    requires Precedes(cs, p, c)
    ensures Precedes(Unique(cs), p, c)
  {
    if cs != [] {
      var rest, last := cs[..|cs| - 1], cs[|cs| - 1];
      UniquePrecedes(rest, p, c);
      UniqueFacts(rest);
      PrecedesAppend(Unique(rest), if last in rest then [] else [last], p, c);
    }
  }

  lemma {:induction false} OnlyUndecidedPrecedes(st: State, cs: seq<Constraint>, p: Constraint, c: Constraint)
    requires Distinct(cs) && Precedes(cs, p, c) && Undecided(st, p)
    ensures Precedes(OnlyUndecided(st, cs), p, c)
  {
    if cs != [] {
      var rest, last := cs[..|cs| - 1], cs[|cs| - 1];
      OnlyUndecidedPrecedes(st, rest, p, c);
      OnlyUndecidedFacts(st, rest);
      PrecedesAppend(OnlyUndecided(st, rest), if Undecided(st, last) then [last] else [], p, c);
    }
  }

  /** Vertices committing to `c` come after a vertex committing to `p`. */
  lemma {:induction false} CommitmentsPrecede(g: Graph, order: seq<VertexHash>, p: Constraint, c: Constraint)
    requires forall h :: h in g ==> Distinct(g[h].parents)
    requires forall i :: 0 <= i < |order| && order[i] in g && c in PC(g[order[i]].parents) ==>
               p in Committed(g, Elements(order[..i]))
    ensures Precedes(Commitments(g, order), p, c)
  {
    if order != [] {
      var n := |order| - 1;
      var rest, h := order[..n], order[n];
      forall i | 0 <= i < |rest| && rest[i] in g && c in PC(g[rest[i]].parents)
        ensures p in Committed(g, Elements(rest[..i]))
      {
        assert rest[..i] == order[..i] && rest[i] == order[i];
      }
      CommitmentsPrecede(g, rest, p, c);
      CommitmentsContent(g, rest, p);
      if h in g {
        ConstraintSeqElements(g[h].parents);
        PrecedesAppend(Commitments(g, rest), ConstraintSeq(g[h].parents), p, c);
      } else {
        PrecedesAppend(Commitments(g, rest), [], p, c);
      }
    }
  }
}

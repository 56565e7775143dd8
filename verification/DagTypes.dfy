/** Configuration, errors and the Avalanche state kept per conflict set (src/consensus/dag.rs). */
module DagTypes {
  import opened Wrappers
  import opened Vertices

  datatype Error =
    | AlreadyInserted
    | AlreadyRecorded
    | BadCfgThreshold
    | BadHeight(expected: nat, found: nat)
    | ConflictingAncestors
    | MissingParents(missing: seq<VertexHash>)
    | NotFound
    | RejectedAncestor
    | SelfReferentialParent
    | InvalidVertex(error: VertexError)
    | WaitingOnParents(waiting: seq<VertexHash>)
    | WaitingOnInsert

  /** How recording a result ends; the source panics if it meets a rejected ancestor. */
  datatype Outcome = Done | Refused(error: Error) | Panicked

  datatype Config = Config(genesis: VertexHash, threshAccepted: nat, threshSafeEarlyCommit: nat) {

    predicate Valid() {
      threshSafeEarlyCommit <= threshAccepted
    }
  }

  datatype ConflictSet = ConflictSet(
    preferred: Constraint,
    last: Constraint,
    chit: map<Constraint, bool>,
    confidence: map<Constraint, nat>,
    count: map<Constraint, nat>,
    parents: map<Constraint, set<Constraint>>,
    children: map<Constraint, set<Constraint>>,
    decision: map<Constraint, bool>)

  /** A conflict set as it is created for the first of its constraints to be seen.  The opposite
      order, if any, gets its entries too, but no parents. */
  function NewConflictSet(initial: Constraint, parents: set<Constraint>): ConflictSet {
    var keys := {initial, initial.Flip()};
    ConflictSet(
      initial,
      initial,
      map c | c in keys :: false,
      map c | c in keys :: 0,
      map c | c in keys :: 0,
      map c | c in keys :: if c == initial then parents else {},
      map c | c in keys :: {},
      map[])
  }

  type State = map<ConflictSetKey, ConflictSet>

  /** The decision taken on a constraint, if any. */
  function Dec(st: State, c: Constraint): Option<bool> {
    if c.Key() in st && c in st[c.Key()].decision then Some(st[c.Key()].decision[c]) else None
  }

  predicate Accepted(st: State, c: Constraint) {
    Dec(st, c) == Some(true)
  }

  predicate Rejected(st: State, c: Constraint) {
    Dec(st, c) == Some(false)
  }

  predicate Undecided(st: State, c: Constraint) {
    Dec(st, c) == None
  }
}

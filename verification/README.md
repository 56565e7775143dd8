# Avalanche on an ordering-constraint graph: a verified model

This project models the consensus core of libtaurus in Dafny and proves what it guarantees: the
DAG of vertices and its graph of ordering constraints (`src/consensus/dag.rs`), the constraint
algebra (`src/consensus/vertex.rs`), and the submit-then-retry step of the task that drives them
(`src/consensus/task.rs`).

A vertex with parents `p1 .. pn` commits to the order of every pair of them and to the *unity*
`(p, p)` of each. These commitments form a second graph, the constraint graph, in which the
parents of `(a, b)` are the commitments of `a` and `b`. A vote on a vertex walks the undecided
constraints of its ancestry; a constraint is accepted when its counter reaches a threshold, and
then the opposite order and its whole progeny are rejected.

The model comes in three layers.

* Plain notions on the vertex graph (`Ancestry`, `Voting`, `Insertion`): strict ancestors, the
  constraints an ancestry commits to, reachability between constraints, support (the positively
  recorded vertices which commit to a constraint).
* The DAG as a value (`Search`, `ActiveSets`, `Dags`): the height-bounded search and the checks as
  the source has them, and one event, a submission or a vote, as a function from state to state.
  A *run* is any legal sequence of events from genesis, the only start the task uses. `WellFormed`
  is what every event keeps.
* The DAG and the task as objects (`DagObject`, `Tasks`): the source's maps as fields, its loops
  over sets in any order, its recursion over the constraint graph and its retry queue. Every method
  is proved against the effect of its event, and `Valid()` says that the object is where a run
  leads, so everything proved about runs holds of the object.

The results about runs are in `Safety`, `ConflictFree`, `Cascade`, `Finality`, `Streaks`,
`Overwriting`, `Preference`, `Queries`, `Frontiers`, `RecordedParents` and `ArrivalOrder`. What
fails is shown on concrete runs, built with `Scenarios`, in `HardFork` and `Frontiers`.

`Legal` says which events a run consists of: a submitted vertex equals the known one of the same
hash (hashes do not collide), and a vote finds the active ancestors of its vertex. Where a search
meets a rejected ancestor, `record_query_result` unwraps an error and panics
(`src/consensus/dag.rs:480`): the object then reports a panic, and what it leaves behind is given,
but no run goes on from there. The order in which a vote walks vertices of equal height depends on
hash-set iteration; it is part of the event, and everything is proved for all such orders.

Where the code and its documentation or tests part, the model follows the code (line numbers are
those of `src/consensus/dag.rs`):

* Finality. `query` calls a decision final (lines 583-591), but decisions can be overwritten in two
  ways. The threshold alone accepts a constraint whose parents are not accepted (line 532), after
  which it can be rejected along with them (lines 541-543): `HardFork.AcceptanceTakenBack`. And a
  positive vote on a rejected vertex can accept it (lines 503-506, 537-539):
  `HardFork.DecisionsAreNotFinal`, a run in which line 480 would panic besides. The exact condition
  of each can be checked before the vote. `Overwriting.AcceptedOverwritten` gives the first in every
  run, `Overwriting.RejectedVertexRipe` the second as long as nothing has been overwritten, and
  `Overwriting.RunOverwritesNothing` says with both when a run overwrites nothing at all.
  `Finality.RunFinalIffGuarded` is the stronger equivalence: a run both overwrites nothing and keeps
  its decisions closed under the constraint graph if and only if every constraint it accepts has
  all its constraint parents accepted at that moment.
* Retrying. A vertex which would pass the checks can be left behind, if votes have settled the
  conflict in its ancestry since it was last tried (`HardFork`). Submitting neither adds to such
  vertices nor inserts them, apart from the submitted one: `Tasks.Task.SubmitVertex`.
* Preference. The preferred order of an undecided pair can have less support than the other
  (`HardFork.PreferenceBehind`), because an accepted vertex hides the undecided order it commits to
  from the votes on its descendants. `Preference.PreferenceFollowsSupport` says exactly when not.
* Recorded parents. A conflict set records the constraint parents of one of its two orders only
  (lines 351, 705-709), although both have the same: `RecordedParents.OneOrderRecorded`. Constraint
  parents are therefore defined from the vertices; the recorded ones only matter for unities.
* `get_frontier` is documented to return the lowest vertices only (lines 637-640), but filters by
  preference and not by height: `Frontiers.FrontierOfTwoHeights`. Without opposite orders the
  frontier has one height exactly if every inserted vertex below the greatest height has an inserted
  child: `Frontiers.OneHeight`.

## Model

| member | source | states |
|---|---|---|
| Vertices.SanityChecks | src/consensus/vertex.rs:95-105 | passes exactly the current-version vertices with a non-empty, repetition-free parent list |
| Vertices.CardinalityDetectsDuplicates | src/consensus/vertex.rs:100-101 | comparing the number of different parents with their number detects a repetition |
| Vertices.KeyIdentifiesConflictSet | src/consensus/vertex.rs:213-234 | two constraints share a conflict set key exactly when they are equal or opposite |
| Vertices.OneOrientation | src/consensus/vertex.rs:255-286 | a repetition-free parent list commits to one order of each pair and never to both |
| Vertices.ConstraintsDetermineParents | src/consensus/vertex.rs:107-110 | the set of constraints determines the parent list, order included |
| Vertices.Constraints.Next | src/consensus/vertex.rs:270-286 | yields the next item of the constraint sequence, and nothing exactly when none is left |
| Vertices.ParentConstraints | src/consensus/vertex.rs:107-110 | draining the iterator terminates and yields the constraint sequence |
| Vertices.ConstraintSeqIsPC | src/consensus/vertex.rs:255-286 | for n different parents, n(n+1)/2 different constraints: one orientation of each pair and every unity |
| Vertices.ConstraintSeqOrder | src/consensus/vertex.rs:270-286 | pairs come row by row, then the unities from the last parent to the first |
| Ancestry.ReachOfKid | src/consensus/dag.rs:436-440 | along a constraint-children edge the reachable set strictly shrinks, so the recursions over the mutable graph end |
| Search.DecidedHeightMeaning | src/consensus/dag.rs:155-173 | fails exactly when a rejected vertex is reached through undecided ones, and otherwise is the least height at which a decision is met |
| Search.GatherMeaning | src/consensus/dag.rs:176-191 | the gathered vertices are exactly the parents of the ancestors above the cut |
| ActiveSets.ParentGathered | src/consensus/dag.rs:203-210 | despite the cut, a parent is gathered exactly when one parent is a strict ancestor of another, whatever is decided |
| ActiveSets.SearchOutcome | src/consensus/dag.rs:193-224 | the three outcomes: a rejected vertex met, parents no antichain, or the active set |
| ActiveSets.ActiveSound | src/consensus/dag.rs:203-222 | the search returns undecided ancestors only |
| ActiveSets.ActiveComplete | src/consensus/dag.rs:203-222 | the search returns every vertex reached through undecided vertices only |
| ActiveSets.ActiveExact | src/consensus/dag.rs:150-152 | when decisions are closed under ancestors the result is exactly the undecided ancestors |
| ActiveSets.ActiveInherited | src/consensus/dag.rs:203-222 | what is active for a vertex reached through undecided ones is active for the vertex searched from |
| Dags.CheckOutcome | src/consensus/dag.rs:245-294 | the exact answer of the checks in every case: which test of the vertex alone fails first; already inserted; the unknown parents, or else the uninserted ones, in their order; the height expected; a rejection met; parents no antichain; a conflict among the undecided constraints; or a pass |
| Steps.InsertWellFormed | src/consensus/dag.rs:309-366 | inserting keeps the child map the inverse of the parents, heights, frontier and registered constraint graph exact |
| Steps.ApplyWellFormed | src/consensus/dag.rs:391-563 | every legal event keeps the DAG well-formed |
| Runs.SubmitCases | src/consensus/dag.rs:391-412 | a submitted vertex is inserted, to wait for a result, exactly if it passes the checks; otherwise it becomes known exactly if all that is wrong is a parent not inserted, and nothing is voted on or inserted |
| Insertion.RegisterOneMore | src/consensus/dag.rs:321-352 | the order in which the constraints of a vertex are registered does not matter |
| Insertion.InsertKeepsStateOk | src/consensus/dag.rs:321-352 | the registered children stay exactly those induced by the vertices |
| Insertion.InsertPair | src/consensus/dag.rs:328-351 | a new pair starts with the order met as preferred and last, uncounted, and undecided, or rejected if a constraint parent is |
| Insertion.InsertUnity | src/consensus/dag.rs:328-351 | a new vertex starts uncounted and undecided, or rejected if a constraint it commits to is |
| Runs.ActiveConstraintsOnlyShrink | src/consensus/dag.rs:226-240 | over a run the constraints returned for an inserted vertex only become fewer |
| Voting.ProgenyIsSupport | src/consensus/dag.rs:433-446 | the recursion, which terminates on every registered state, finds exactly the reachable constraints with a chit |
| Voting.ConfidenceCountsVertices | src/consensus/dag.rs:486-495 | confidence is the number of recorded vertices committing to the constraint, directly or through an ancestor |
| Voting.ReachUnfolds | src/consensus/dag.rs:452-461 | a constraint with everything reached from its children is everything reached from it |
| Voting.UnityReached | src/consensus/dag.rs:452-461 | among vertices, a rejection reaches exactly those which commit to the constraint or descend from one that does, and the vertex itself |
| Overwriting.VoteForDecision | src/consensus/dag.rs:526-544 | a positive vote on one constraint accepts it exactly at the threshold, or, for a unity, at the early one with all constraint parents accepted; it rejects exactly what lies below the opposite of a pair it accepts, and decides on nothing else |
| Overwriting.WalkedDecision | src/consensus/dag.rs:478-544 | the decision a whole vote leaves on a constraint it walks: a rejection walked later wins, then its own turn, then a rejection walked before |
| Overwriting.WalkedInRuns | src/consensus/dag.rs:526-540 | in every run, for any thresholds, a walked constraint which the vote does not strike is accepted exactly if, by the state before, it is one vote from the threshold, or is a unity one vote from the early one whose constraint parents are accepted or fall due before it; otherwise its decision stays |
| VoteLists.VoteListContent | src/consensus/dag.rs:226-240 | the walked list is exactly the undecided commitments of the walked vertices and the unity of the voted one |
| Ballots.BallotDistinct | src/consensus/dag.rs:478-483 | no constraint is walked twice in one vote, and the voted vertex comes last |
| BallotOrder.BallotOrderly | src/consensus/dag.rs:478-483 | with acceptance closed, a vote walks every undecided constraint its vertex backs, parents before children |
| Safety.EveryRunSafe | src/consensus/dag.rs:283-291 | in every run, inserted vertices stay free of open conflicts, opposites of accepted orders are rejected, counters and acceptances are backed |
| Safety.NeverBothOrders | src/consensus/dag.rs:536-543 | in no run are both orders of a pair accepted: the opposite of an accepted order is rejected |
| Safety.NoVoteTouchesBothOrders | src/consensus/dag.rs:478-483 | no vote of any run walks a constraint together with its opposite |
| Safety.DecidedPairStaysFrozen | src/consensus/dag.rs:235-238 | once both orders are decided, preference, last vote, counters and confidence of the pair never change |
| Safety.InsertSupport | src/consensus/dag.rs:321-352 | insertions never change the support of any constraint |
| Safety.ConfidenceInRuns | src/consensus/dag.rs:433-446 | in every run the recursion over the constraint graph counts the positively recorded vertices which commit to the constraint |
| Safety.AcceptanceNeedsQuorum | src/consensus/dag.rs:526-540 | in every run counters are at most the support, and acceptance has the early threshold of distinct recorded vertices behind a unity, the full one behind an order of two |
| Streaks.CounterIsStreak | src/consensus/dag.rs:516-552 | the counter is the number of positive votes since the latest positive vote on the opposite or negative vote on the constraint |
| Streaks.AcceptanceNeedsStreak | src/consensus/dag.rs:526-540 | a constraint is accepted only at the end of an uninterrupted streak as long as its threshold |
| Preference.ConflictFreePreference | src/consensus/dag.rs:592-624 | without opposite orders every inserted vertex is strongly preferred, finally so exactly when accepted |
| Overwriting.AcceptedOverwritten | src/consensus/dag.rs:532-543 | in every run a positive vote rejects an accepted constraint exactly when it walks a pair one vote from the threshold below whose opposite the constraint lies, and otherwise leaves it accepted |
| Overwriting.KeepingRunFaithful | src/consensus/dag.rs:452-461 | as long as no event has overwritten a decision, a vertex is rejected exactly along with something it commits to |
| Overwriting.RejectedVertexRipe | src/consensus/dag.rs:503-540 | as long as no event has overwritten a decision, a positive vote accepts its own rejected vertex exactly when it brings the counter to the full threshold: the early one never does |
| Overwriting.PendingJustified | src/consensus/dag.rs:526-540 | in every run an accepted vertex still waiting for its own vote has its full count, or the early one with accepted parents |
| Overwriting.RunOverwritesNothing | src/consensus/dag.rs:583-591 | no event of a run overwrites a decision if and only if, by the state before each, no positive vote strikes an accepted constraint or is on a rejected vertex one vote from the threshold |
| Overwriting.KeepingRunIsFinal | src/consensus/dag.rs:583-591 | in such a run what is decided at any moment stays decided the same way |
| HardFork.AcceptanceTakenBack | src/consensus/dag.rs:532-543 | a run which overwrites nothing for eight votes, accepts a vertex before the order it commits to, and rejects it at the ninth |
| HardFork.PreferenceBehind | src/consensus/dag.rs:511-514 | a run in which the preferred order of an undecided pair has less support than the other |
| RecordedParents.OneOrderRecorded | src/consensus/dag.rs:694-717 | in every run each conflict set of a pair records the constraint parents of exactly one order and none for the other, which has the same ones, never none |
| Frontiers.FrontierMembers | src/consensus/dag.rs:641-655 | in any well-formed state, opposite orders or not: the vertices without inserted children which are accepted, or undecided with a search that meets no rejection and returns preferred orders only |
| Frontiers.ConflictFreeFrontier | src/consensus/dag.rs:641-655 | without opposite orders the frontier is all inserted vertices without inserted children |
| Frontiers.OneHeight | src/consensus/dag.rs:637-655 | without opposite orders, the frontier has a single height if and only if every inserted vertex below the greatest height has an inserted child |
| Frontiers.FrontierOfTwoHeights | src/consensus/dag.rs:637-655 | a run whose frontier holds vertices of two heights |
| Preference.VotesPrefer | src/consensus/dag.rs:511-514 | a whole vote gives a walked constraint the preference if it has more support than its opposite, and otherwise only by deciding it |
| Preference.ConfidenceRecorded | src/consensus/dag.rs:486-508 | in every run a positive vote makes the recorded confidence of what it walks the support after the vote, and touches no other |
| Preference.AcceptedIsPreferred | src/consensus/dag.rs:536-540 | in every run an accepted constraint is the preferred one of its conflict set |
| Preference.PreferenceFollowsSupport | src/consensus/dag.rs:511-514 | in every run the preferred order of an undecided pair always has at least the support of the other, if and only if no vote lets a level opposite pull ahead which its vertex alone backs and the vote does not walk |
| Preference.GuardedPreference | src/consensus/dag.rs:511-514 | no vote of a guarded run does |
| ConflictFree.ConflictFreeFinality | src/consensus/dag.rs:328-350 | without opposite orders, whatever the votes, nothing is rejected, no acceptance is lost and every search succeeds |
| Cascade.CountersAreConfidence | src/consensus/dag.rs:484-544 | without opposite orders and negative votes, counters are the live confidence and accepted constraints have accepted parents |
| Cascade.ParentsFirstMidVote | src/consensus/dag.rs:526-544 | nor is a constraint accepted before its parents at any moment of the cascade inside one vote |
| Finality.VoteFinalIffGuarded | src/consensus/dag.rs:532-544 | a vote overwrites no decision and keeps decisions closed exactly when whatever it accepts has its constraint parents accepted |
| Finality.RunFinalIffGuarded | src/consensus/dag.rs:532-544 | the same equivalence, with overwriting nothing and keeping decisions closed, for whole runs |
| Finality.GuardedRunFinality | src/consensus/dag.rs:452-461 | in such a run decisions are kept, acceptance is closed under parents, rejection under children, and searches fail for rejected vertices only |
| Queries.QueryOutcome | src/consensus/dag.rs:592-631 | a query reports the decision if there is one; of an undecided vertex it reports, as not final, whether every constraint the search returns is the preferred one of its pair; and it fails exactly for unknown, waiting, or undecided vertices whose search meets a rejection |
| Queries.StrongPreferenceInherited | src/consensus/dag.rs:603-623 | strong preference passes down to every undecided vertex reached through undecided ones |
| Queries.GuardedQueriesSucceed | src/consensus/dag.rs:592-624 | in a guarded run every query of an inserted vertex succeeds |
| HardFork.DecisionsAreNotFinal | src/consensus/dag.rs:478-540 | the same run two votes on: it rejects a vertex and then accepts it, has a waiting vertex whose result cannot be recorded, and leaves a ready vertex behind |
| HardFork.ReadyStranded | src/consensus/dag.rs:391-412 | a ready vertex stays ready and out of the graph however many submissions of other vertices follow |
| Arrivals.ReadyAfterSubmit | src/consensus/dag.rs:391-412 | a submission makes ready at most the known children of the submitted vertex and no other ready vertex unready |
| ArrivalOrder.PassesIsFit | src/consensus/dag.rs:245-294 | without votes the checks depend on the vertex and its ancestry only |
| ArrivalOrder.LargestValidGraph | src/consensus/dag.rs:370-412 | without votes, when nothing is ready the inserted graph is the largest parent-closed set of valid vertices among those submitted |
| ArrivalOrder.ArrivalOrderIrrelevant | src/consensus/task.rs:229-241 | without votes any two orders of arrival lead to the same graph and frontier |
| DagObject.DAG.New | src/consensus/dag.rs:114-148 | refuses exactly bad thresholds; otherwise the genesis state, as the start of a run |
| DagObject.DAG.GetActiveAncestors | src/consensus/dag.rs:153-224 | the active set without repetition, by ascending height, or the error of the search |
| DagObject.DAG.GetActiveAncestorConstraints | src/consensus/dag.rs:228-240 | the undecided constraints of the active ancestors and of the vertex, each once, in walking order |
| DagObject.DAG.CheckVertex | src/consensus/dag.rs:245-294 | the loops compute that answer |
| DagObject.DAG.MapChildren | src/consensus/dag.rs:297-305 | adds the vertex to the children of each parent, whether or not the parent has an entry |
| DagObject.DAG.InsertVertex | src/consensus/dag.rs:309-366 | the new value of all six maps |
| DagObject.DAG.TryInsert | src/consensus/dag.rs:391-412 | one submission step of the run; answers the known vertices over the submitted one which are not inserted, or what is wrong with it |
| DagObject.DAG.RetryPending | src/consensus/dag.rs:370-387 | the drain loop ends, inserts exactly what it reports, makes unready exactly the listed vertices, and adds only submissions of known vertices to the run |
| DagObject.DAG.RejectProgeny | src/consensus/dag.rs:452-461 | ends, and rejects exactly the constraint and what is reachable from it |
| DagObject.DAG.RecordFor | src/consensus/dag.rs:484-544 | the positive vote on one constraint, with the decisions of `Overwriting.VoteForDecision` |
| Safety.VoteAllAgainst | src/consensus/dag.rs:545-552 | a negative vote resets exactly the counters of what it walks and changes nothing else |
| DagObject.DAG.RecordQueryResult | src/consensus/dag.rs:420-563 | one vote step of the run for a waiting vertex whose search succeeds; the matching error and nothing changed for any other; and where the search meets a rejected ancestor a panic, with the vertex no longer waiting, the chit of a positive result awarded and nothing voted on |
| DagLoops.TornFacts | src/consensus/dag.rs:465-482 | what the panic leaves behind: the vertex waits no longer, a positive result has given it its chit, nothing else has changed |
| Tasks.Task.SubmitVertex | src/consensus/task.rs:229-268 | answers the known vertices which waited for the submitted one, or what is wrong with it; afterwards exactly the vertices ready before are ready, except the submitted one; nothing is left ready exactly when nothing else was |
| Tasks.Task.RecordPeerPreference | src/consensus/task.rs:226-228 | one vote step of the run, nothing, or the panic |
| Tasks.Task.HandleActions | src/consensus/task.rs:199-270 | each action takes the run on in its own way: a submission with retries only, a result by exactly one vote if its vertex waits for one; only a result which cannot be recorded stops the loop; submissions alone lead to the largest valid graph among the submitted vertices |
| Tasks.VotesAreResults | src/consensus/task.rs:226-228 | the votes so added are, in order, exactly the results reported for waiting vertices |

## Left out

- Networking, RPC, the sequencer, the command line, logging and the daemon: input and output only.
- Wire formats and hashing: a hash is an abstract, totally ordered identifier carried by the vertex, and `Legal` assumes that it determines the vertex.
- Timestamps, namespaces and transaction roots, which consensus does not read, and the timestamp sort of `get_frontier`: the frontier is a set.
- Pollster, fetcher and the choice of validators: a vote is an arbitrary `(vertex, result)` event.
- Parallelism of the minimum in `decided_height`: a sequential minimum over the set of branch results.
- Overflow of heights and counters: natural numbers.
- DagObject.DAG.New: takes the genesis vertex only, because the task never passes other initial vertices and the source neither checks those nor rejects the opposites of their pairs.
- `Vertex::with_parents`, `is_preferred` and `get_known_children`: too simple to add to the results.
- Tasks.Task.HandleActions: covers the two actions which change the DAG.

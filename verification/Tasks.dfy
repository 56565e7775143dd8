/**
 The consensus task around the DAG (src/consensus/task.rs): submitting a vertex and retrying
 what waited for it, and recording the preference of peers.
 */
module Tasks {
  import opened Wrappers
  import opened Vertices
  import opened Ancestry
  import opened DagTypes
  import opened Dags
  import opened Runs
  import opened Arrivals
  import opened ArrivalOrder
  import opened DagLoops
  import opened DagObject

  lemma SubmitLegal(cfg: Config, v0: Vertex, log: seq<Event>, v: Vertex)
    requires cfg.Valid() && IsGenesis(cfg, v0) && IsRun(cfg, v0, log) && CollisionFree(Submitted(log) + {v0, v})
    ensures Legal(Run(cfg, v0, log), Submit(v))
  {
    hide Run, IsRun, WellFormed, Submitted;
    var d := Run(cfg, v0, log);
    if v.hash in d.vertex {
      KnownWasSubmitted(cfg, v0, log, v.hash);
      KnownIsLegal(d, v.hash);
    }
  }

  /** The actions which change the DAG. */
  datatype Action =
    | SubmitVertex(v: Vertex)
    | RecordPeerPreference(vhash: VertexHash, preference: bool)

  ghost function VerticesOf(actions: seq<Action>): set<Vertex> {
    set a | a in actions && a.SubmitVertex? :: a.v
  }

  ghost predicate SubmissionsOnly(actions: seq<Action>) {
    forall a :: a in actions ==> a.SubmitVertex?
  }

  lemma OneMoreAction(actions: seq<Action>, i: nat)
    requires i < |actions|
    ensures VerticesOf(actions[..i + 1]) ==
            VerticesOf(actions[..i]) + if actions[i].SubmitVertex? then {actions[i].v} else {}
    ensures VerticesOf(actions[..i + 1]) <= VerticesOf(actions)
    ensures SubmissionsOnly(actions) ==> actions[i].SubmitVertex?
  {
    assert actions[..i + 1] == actions[..i] + [actions[i]];
    assert actions[i] in actions[..i + 1];
    assert forall a :: a in actions[..i] ==> a in actions[..i + 1];
  }

  lemma SubmittedNoMore(log: seq<Event>, e: Event)
    requires e.Vote?
    ensures Submitted(log + [e]) == Submitted(log)
  {
    assert (log + [e])[..|log|] == log;
  }

  /** How one action takes the run on: a submission by itself and retries of known vertices, a
      result by one vote if its vertex waits for one, and not at all otherwise. */
  ghost predicate Handles(cfg: Config, v0: Vertex, log: seq<Event>, a: Action, log': seq<Event>)
    requires cfg.Valid() && IsGenesis(cfg, v0) && IsRun(cfg, v0, log)
  {
    match a
    case SubmitVertex(v) =>
      && log + [Submit(v)] <= log' && IsRun(cfg, v0, log')
      && Resubmits(Run(cfg, v0, log').vertex, log'[|log| + 1..])
    case RecordPeerPreference(h, preference) =>
      if h in Run(cfg, v0, log).pending then exists order :: log' == log + [Vote(h, preference, order)]
      else log' == log
  }

  /** The runs before and after each of the actions. */
  ghost predicate Traces(cfg: Config, v0: Vertex, logs: seq<seq<Event>>, actions: seq<Action>)
    requires cfg.Valid() && IsGenesis(cfg, v0)
  {
    && |logs| == |actions| + 1
    && forall i :: 0 <= i < |actions| ==> IsRun(cfg, v0, logs[i]) && Handles(cfg, v0, logs[i], actions[i], logs[i + 1])
  }

  lemma NothingHandled(cfg: Config, v0: Vertex, log: seq<Event>)
    requires cfg.Valid() && IsGenesis(cfg, v0)
    ensures Traces(cfg, v0, [log], []) && VerticesOf([]) == {}
  {
  }

  lemma TracesOneMore(cfg: Config, v0: Vertex, logs: seq<seq<Event>>, actions: seq<Action>, a: Action,
                      log': seq<Event>)
    requires cfg.Valid() && IsGenesis(cfg, v0) && Traces(cfg, v0, logs, actions)
    requires IsRun(cfg, v0, logs[|actions|]) && Handles(cfg, v0, logs[|actions|], a, log')
    ensures Traces(cfg, v0, logs + [log'], actions + [a])
  {
    hide Handles, IsRun;
  }

  lemma SubmissionHandled(cfg: Config, v0: Vertex, log: seq<Event>, v: Vertex, log': seq<Event>)
    requires cfg.Valid() && IsGenesis(cfg, v0) && IsRun(cfg, v0, log) && IsRun(cfg, v0, log')
    requires log + [Submit(v)] <= log' && Resubmits(Run(cfg, v0, log').vertex, log'[|log| + 1..])
    ensures Handles(cfg, v0, log, SubmitVertex(v), log')
  {
    hide IsRun, Run, IsGenesis, Resubmits;
  }

  lemma ResultHandled(cfg: Config, v0: Vertex, log: seq<Event>, h: VertexHash, preference: bool,
                      order: seq<VertexHash>, log': seq<Event>)
    requires cfg.Valid() && IsGenesis(cfg, v0) && IsRun(cfg, v0, log)
    requires log' == if h in Run(cfg, v0, log).pending then log + [Vote(h, preference, order)] else log
    ensures Handles(cfg, v0, log, RecordPeerPreference(h, preference), log')
  {
    hide IsRun, Run, IsGenesis;
  }

  /** The votes of a run, in order. */
  ghost function VotesOf(log: seq<Event>): seq<(VertexHash, bool)> {
    if log == [] then []
    else
      var e := log[|log| - 1];
      VotesOf(log[..|log| - 1]) + if e.Vote? then [(e.h, e.preferred)] else []
  }

  /** The results among the actions whose vertex was waiting for one when they came up. */
  ghost function Recorded(cfg: Config, v0: Vertex, logs: seq<seq<Event>>, actions: seq<Action>)
    : seq<(VertexHash, bool)>
    requires cfg.Valid() && IsGenesis(cfg, v0) && Traces(cfg, v0, logs, actions)
    decreases |actions|
  {
    if actions == [] then []
    else
      var n := |actions| - 1;
      var a := actions[n];
      Recorded(cfg, v0, logs[..n + 1], actions[..n]) +
      if a.RecordPeerPreference? && a.vhash in Run(cfg, v0, logs[n]).pending then [(a.vhash, a.preference)] else []
  }

  lemma {:induction false} NoVotes(log: seq<Event>, tail: seq<Event>)
    requires forall e :: e in tail ==> e.Submit?
    ensures VotesOf(log + tail) == VotesOf(log)
    decreases |tail|
  {
    if tail == [] {
      assert log + tail == log;
    } else {
      var n := |tail| - 1;
      assert (log + tail)[..|log + tail| - 1] == log + tail[..n] && tail[n] in tail;
      NoVotes(log, tail[..n]);
    }
  }

  lemma NoVotesAdded(log: seq<Event>, v: Vertex, known: Graph, log': seq<Event>)
    requires log + [Submit(v)] <= log' && Resubmits(known, log'[|log| + 1..])
    ensures VotesOf(log') == VotesOf(log)
  {
    hide VotesOf;
    var tail := [Submit(v)] + log'[|log| + 1..];
    assert log' == log + tail;
    NoVotes(log, tail);
  }

  lemma OneMoreVote(log: seq<Event>, e: Event)
    requires e.Vote?
    ensures VotesOf(log + [e]) == VotesOf(log) + [(e.h, e.preferred)]
  {
    assert (log + [e])[..|log + [e]| - 1] == log;
  }

  lemma VotesOfAction(cfg: Config, v0: Vertex, log: seq<Event>, a: Action, log': seq<Event>)
    requires cfg.Valid() && IsGenesis(cfg, v0) && IsRun(cfg, v0, log) && Handles(cfg, v0, log, a, log')
    ensures VotesOf(log') ==
            VotesOf(log) +
            if a.RecordPeerPreference? && a.vhash in Run(cfg, v0, log).pending then [(a.vhash, a.preference)] else []
  {
    hide IsRun, Run, VotesOf, Resubmits, WellFormed, IsGenesis;
    match a
    case SubmitVertex(v) => NoVotesAdded(log, v, Run(cfg, v0, log').vertex, log');
    case RecordPeerPreference(h, preference) =>
      if h in Run(cfg, v0, log).pending {
        var order :| log' == log + [Vote(h, preference, order)];
        OneMoreVote(log, Vote(h, preference, order));
      }
  }

  /** The votes which the actions add to the run are exactly the results reported for waiting
      vertices, in order. */
  lemma {:induction false} VotesAreResults(cfg: Config, v0: Vertex, logs: seq<seq<Event>>, actions: seq<Action>)
    requires cfg.Valid() && IsGenesis(cfg, v0) && Traces(cfg, v0, logs, actions)
    ensures VotesOf(logs[|actions|]) == VotesOf(logs[0]) + Recorded(cfg, v0, logs, actions)
    decreases |actions|
  {
    hide IsRun, Run, Handles, VotesOf, IsGenesis;
    if actions != [] {
      var n := |actions| - 1;
      assert Handles(cfg, v0, logs[n], actions[n], logs[n + 1]);
      var before := logs[..n + 1];
      assert before[n] == logs[n] && before[0] == logs[0] && |actions[..n]| == n;
      VotesAreResults(cfg, v0, before, actions[..n]);
      VotesOfAction(cfg, v0, logs[n], actions[n], logs[n + 1]);
    }
  }

  class Task {
    const dag: DAG

    ghost predicate Valid()
      reads this, dag
    {
      dag.Valid()
    }

    /** The run so far cannot be continued by the given result, which has left its traces. */
    ghost predicate Stuck(a: Action)
      requires a.RecordPeerPreference?
      reads this, dag
    {
      && dag.cfg.Valid() && IsGenesis(dag.cfg, dag.v0) && IsRun(dag.cfg, dag.v0, dag.log)
      && var d := Run(dag.cfg, dag.v0, dag.log);
         !CanRecord(d, a.vhash) && dag.View() == Torn(d, a.vhash, a.preference)
    }

    constructor Over(dag: DAG)
      ensures this.dag == dag
    {
      this.dag := dag;
    }

    /** A task whose DAG holds the genesis vertex only; invalid thresholds are refused. */
    static method New(config: Config, genesis: Vertex) returns (r: Result<Task, Error>)
      requires IsGenesis(config, genesis)
      ensures r.Ok? <==> config.Valid()
      ensures r.Err? ==> r.error == BadCfgThreshold
      ensures r.Ok? ==> fresh(r.value) && fresh(r.value.dag) && r.value.Valid() && r.value.dag.log == []
      ensures r.Ok? ==> r.value.dag.cfg == config && r.value.dag.View() == Genesis(config, genesis)
      ensures r.Ok? ==> Ready(r.value.dag.View()) == {}
    {
      hide Run, IsRun, Genesis, WellFormed, First, Next, Legal;
      var dag := DAG.New(config, genesis);
      if dag.Err? {
        return Err(dag.error);
      }
      NothingReadyFirst(config, genesis);
      RunOfNothing(config, genesis);
      var task := new Task.Over(dag.value);
      return Ok(task);
    }

    /** Tries to insert a vertex and, on success, whatever was waiting for it; answers what was, or
        what is wrong with the vertex.  The vertices ready before, other than the submitted one, are
        exactly those ready afterwards; so nothing is left behind exactly when nothing but the
        submitted vertex was ready. */
    method SubmitVertex(v: Vertex) returns (resp: Result<set<VertexHash>, Error>)
      requires Valid() && Legal(dag.View(), Submit(v))
      modifies dag
      ensures Valid() && old(dag.log) + [Submit(v)] <= dag.log
      ensures Submitted(dag.log) == Submitted(old(dag.log)) + {v}
      ensures VoteFree(old(dag.log)) ==> VoteFree(dag.log)
      ensures resp.Ok? <==> Passes(old(dag.View()), v)
      ensures resp.Ok? ==>
                resp.value ==
                set w | w in old(dag.vertex) && v.hash in old(dag.vertex)[w].parents && w !in old(dag.graph)
      ensures resp.Err? ==> IsCheckOutcome(old(dag.View()), v, Err(resp.error))
      ensures Resubmits(dag.vertex, dag.log[|old(dag.log)| + 1..])
      ensures Ready(dag.View()) == Ready(old(dag.View())) - {v.hash}
      ensures Ready(dag.View()) == {} <==> Ready(old(dag.View())) <= {v.hash}
    {
      hide Run, IsRun, WellFormed, Legal, Passes, Submitted, VoteFree, Ready, Next, IsCheckOutcome;
      ReadyAfterSubmit(dag.View(), v);
      WaitingNotReady(dag.View(), v);
      SubmittedOneMore(dag.log, v);
      ReadyKnown(dag.View());
      if v.hash in Ready(dag.View()) { ReadyMeans(dag.View(), v); }
      resp := dag.TryInsert(v);
      if resp.Ok? {
        ReadyKnown(dag.View());
        var waiting := PushAll([], resp.value);
        assert dag.cfg.genesis !in Elements(waiting);
        var _ := dag.RetryPending(waiting);
      }
    }

    /** Records a result reported by a poll; the outcome is not reported back. */
    method RecordPeerPreference(vhash: VertexHash, preference: bool)
      returns (panicked: bool, ghost order: seq<VertexHash>)
      requires Valid()
      modifies dag
      ensures panicked <==> !CanRecord(old(dag.View()), vhash)
      ensures !panicked ==> Valid()
      ensures !panicked && vhash in old(dag.pending) ==>
                && Legal(old(dag.View()), Vote(vhash, preference, order))
                && dag.log == old(dag.log) + [Vote(vhash, preference, order)]
                && dag.View() == Next(old(dag.View()), Vote(vhash, preference, order))
      ensures vhash !in old(dag.pending) ==> dag.View() == old(dag.View()) && dag.log == old(dag.log)
      ensures panicked ==> dag.View() == Torn(old(dag.View()), vhash, preference) && dag.log == old(dag.log)
    {
      hide Run, IsRun, WellFormed, Legal, Next, SearchFor, Torn;
      var outcome;
      outcome, order := dag.RecordQueryResult(vhash, preference);
      panicked := outcome.Panicked?;
    }

    /** The event loop over any actions.  It stops short only where the source panics, at a result
        for a vertex whose search meets a rejected ancestor; `logs` are the runs after each action
        handled.  Over submissions alone, whatever their
        order, the inserted graph becomes the largest parent-closed set of valid vertices among the
        submitted ones. */
    method HandleActions(actions: seq<Action>) returns (handled: nat, ghost logs: seq<seq<Event>>)
      requires Valid() && CollisionFree(Submitted(dag.log) + VerticesOf(actions) + {dag.v0})
      modifies dag
      ensures handled <= |actions| && dag.cfg.Valid() && IsGenesis(dag.cfg, dag.v0)
      ensures Traces(dag.cfg, dag.v0, logs, actions[..handled])
      ensures logs[0] == old(dag.log) && logs[handled] == dag.log && old(dag.log) <= dag.log
      ensures handled == |actions| ==> Valid()
      ensures handled < |actions| ==> actions[handled].RecordPeerPreference? && Stuck(actions[handled])
      ensures Submitted(dag.log) == Submitted(old(dag.log)) + VerticesOf(actions[..handled])
      ensures SubmissionsOnly(actions) ==> handled == |actions| && (VoteFree(old(dag.log)) ==> VoteFree(dag.log))
      ensures SubmissionsOnly(actions) && VoteFree(old(dag.log)) && Ready(old(dag.View())) == {} ==>
                && Ready(dag.View()) == {} && Admissible(dag.cfg, dag.v0, Submitted(dag.log), dag.graph)
                && forall g :: Admissible(dag.cfg, dag.v0, Submitted(dag.log), g) ==> Extends(g, dag.graph)
    {
      hide Run, IsRun, WellFormed, Legal, Passes, Submitted, VoteFree, Ready, Next, Admissible, Extends, CollisionFree,
           SearchFor, Torn, IsCheckOutcome, Traces, Handles, Resubmits, VerticesOf, IsGenesis;
      handled, logs := 0, [dag.log];
      NothingHandled(dag.cfg, dag.v0, dag.log);
      ReadyKnown(dag.View());
      assert actions[..0] == [];
      while handled < |actions|
        invariant handled <= |actions| && Valid() && old(dag.log) <= dag.log && Grounded(dag.graph)
        invariant Traces(dag.cfg, dag.v0, logs, actions[..handled])
        invariant |logs| == handled + 1 && logs[0] == old(dag.log) && logs[handled] == dag.log
        invariant Submitted(dag.log) == Submitted(old(dag.log)) + VerticesOf(actions[..handled])
        invariant SubmissionsOnly(actions) && VoteFree(old(dag.log)) ==> VoteFree(dag.log)
        invariant SubmissionsOnly(actions) && Ready(old(dag.View())) == {} ==> Ready(dag.View()) == {}
      {
        OneMoreAction(actions, handled);
        ghost var before := dag.log;
        match actions[handled] {
          case SubmitVertex(v) =>
            FewerCollide(Submitted(dag.log) + {dag.v0, v}, Submitted(old(dag.log)) + VerticesOf(actions) + {dag.v0});
            SubmitLegal(dag.cfg, dag.v0, dag.log, v);
            var _ := SubmitVertex(v);
            SubmissionHandled(dag.cfg, dag.v0, before, v, dag.log);
          case RecordPeerPreference(vhash, preference) =>
            var panicked;
            ghost var order;
            panicked, order := RecordPeerPreference(vhash, preference);
            if panicked {
              return handled, logs;
            }
            ResultHandled(dag.cfg, dag.v0, before, vhash, preference, order, dag.log);
            SubmittedNoMore(before, Vote(vhash, preference, order));
        }
        ReadyKnown(dag.View());
        TracesOneMore(dag.cfg, dag.v0, logs, actions[..handled], actions[handled], dag.log);
        assert actions[..handled + 1] == actions[..handled] + [actions[handled]];
        handled, logs := handled + 1, logs + [dag.log];
      }
      assert actions[..|actions|] == actions;
      FewerCollide(Submitted(dag.log) + {dag.v0}, Submitted(old(dag.log)) + VerticesOf(actions) + {dag.v0});
      if VoteFree(dag.log) && Ready(dag.View()) == {} {
        forall g
          ensures Admissible(dag.cfg, dag.v0, Submitted(dag.log), dag.graph)
          ensures Admissible(dag.cfg, dag.v0, Submitted(dag.log), g) ==> Extends(g, dag.graph)
        {
          LargestValidGraph(dag.cfg, dag.v0, dag.log, g);
        }
      }
    }
  }

  lemma FewerCollide(S: set<Vertex>, T: set<Vertex>)
    requires S <= T && CollisionFree(T)
    ensures CollisionFree(S)
  {
  }
}

/**
 The dependency graph (src/task/cpp/dependency_graph.cpp): which submitted tasks can run.

 A task is ready when every input is available, pending otherwise. An index from data to the
 pending tasks that miss it tells whom to look at when data arrives; it is what can go wrong.
 */
module DependencyGraphs {
  import opened Common

  type Id = nat
  type Data = string

  /** index holds (d, t) when t is listed among the tasks waiting for d; completed holds every
      task that was ever removed. */
  datatype Graph = Graph(deps: map<Id, seq<Data>>, available: set<Data>, ready: set<Id>, pending: set<Id>,
                         completed: set<Id>, index: set<(Data, Id)>)

  ghost predicate AllMet(available: set<Data>, inputs: seq<Data>) {
    forall d :: d in inputs ==> d in available
  }

  function Tasks(g: Graph): set<Id> { g.deps.Keys }

  // ---------------------------------------------------------------------------
  // Operations
  // ---------------------------------------------------------------------------

  /** The inputs of one task that are still missing. */
  ghost function Misses(available: set<Data>, inputs: seq<Data>, t: Id): set<(Data, Id)> {
    set d | d in inputs && d !in available :: (d, t)
  }

  ghost function AddTask(g: Graph, t: Id, inputs: seq<Data>): Graph {
    var met := AllMet(g.available, inputs);
    g.(deps := g.deps[t := inputs], index := g.index + Misses(g.available, inputs, t),
       ready := if met then g.ready + {t} else g.ready,
       pending := if met then g.pending else g.pending + {t})
  }

  /** Listed tasks whose last missing input arrives; removed tasks are passed over. */
  ghost function Promoted(g: Graph, d: Data): set<Id> {
    set t | t in g.pending && t in g.deps && (d, t) in g.index && t !in g.completed
            && AllMet(g.available + {d}, g.deps[t])
  }

  /** Index entries of the given tasks for their own inputs. */
  ghost function Entries(g: Graph, ts: set<Id>): set<(Data, Id)> {
    set e | e in g.index && e.1 in ts && e.1 in g.deps && e.0 in g.deps[e.1]
  }

  ghost function MarkDataReady(g: Graph, d: Data): Graph {
    var promoted := Promoted(g, d);
    g.(available := g.available + {d}, ready := g.ready + promoted, pending := g.pending - promoted,
       index := g.index - Entries(g, promoted))
  }

  /** Ready tasks that lose an input. */
  ghost function Demoted(g: Graph, d: Data): set<Id> {
    set t | t in g.ready && t in g.deps && d in g.deps[t]
  }

  ghost function MissesOf(g: Graph, ts: set<Id>, available: set<Data>): set<(Data, Id)> {
    set t, d | t in ts && t in g.deps && d in g.deps[t] && d !in available :: (d, t)
  }

  ghost function MarkDataRemoved(g: Graph, d: Data): Graph {
    var demoted := Demoted(g, d);
    g.(available := g.available - {d}, ready := g.ready - demoted, pending := g.pending + demoted,
       index := g.index + MissesOf(g, demoted, g.available - {d}))
  }

  ghost function RemoveTask(g: Graph, t: Id): Graph {
    g.(deps := g.deps - {t}, ready := g.ready - {t}, pending := g.pending - {t},
       completed := g.completed + {t}, index := g.index - Entries(g, {t}))
  }

  ghost function Empty(): Graph { Graph(map[], {}, {}, {}, {}, {}) }

  // ---------------------------------------------------------------------------
  // What every operation keeps
  // ---------------------------------------------------------------------------

  /** Every task of the graph is either ready or pending, ready tasks have all their inputs,
      and the index lists only pending tasks under their own inputs. */
  ghost predicate Valid(g: Graph) {
    && g.ready !! g.pending && g.ready + g.pending == Tasks(g)
    && (forall t :: t in g.ready && t in g.deps ==> AllMet(g.available, g.deps[t]))
    && (forall e :: e in g.index ==> e.1 in g.pending && e.1 in g.deps && e.0 in g.deps[e.1])
  }

  /** The index misses no pending task. */
  ghost predicate Indexed(g: Graph) {
    forall t, d :: t in g.pending && t in g.deps && d in g.deps[t] && d !in g.available ==> (d, t) in g.index
  }

  /** No pending task has everything it needs. */
  ghost predicate Live(g: Graph) {
    forall t :: t in g.pending && t in g.deps ==> !AllMet(g.available, g.deps[t])
  }

  lemma {:induction false} AddKeeps(g: Graph, t: Id, inputs: seq<Data>)
    requires Valid(g) && t !in Tasks(g)
    ensures var g' := AddTask(g, t, inputs);
            && Valid(g') && Tasks(g') == Tasks(g) + {t}
            && (t in g'.ready <==> AllMet(g.available, inputs))
            && g'.deps == g.deps[t := inputs] && g'.available == g.available
            && (Indexed(g) ==> Indexed(g')) && (Live(g) ==> Live(g'))
  {
  }

  lemma {:induction false} RemoveKeeps(g: Graph, t: Id)
    requires Valid(g)
    ensures var g' := RemoveTask(g, t);
            && Valid(g') && Tasks(g') == Tasks(g) - {t}
            && (Indexed(g) ==> Indexed(g')) && (Live(g) ==> Live(g'))
  {
  }

  lemma {:induction false} ReadyKeeps(g: Graph, d: Data)
    requires Valid(g)
    ensures var g' := MarkDataReady(g, d);
            && Valid(g') && Tasks(g') == Tasks(g) && g.ready <= g'.ready
            && g'.deps == g.deps && g'.available == g.available + {d} && (Indexed(g) ==> Indexed(g'))
  {
  }

  /** Arriving data leaves no runnable task behind exactly when every task it completes was
      listed under it and was never removed from the graph before. */
  lemma {:induction false} ReadyKeepsLiveIff(g: Graph, d: Data)
    requires Valid(g) && Live(g)
    ensures Live(MarkDataReady(g, d)) <==>
            forall t :: t in g.pending && t in g.deps && AllMet(g.available + {d}, g.deps[t]) ==>
              (d, t) in g.index && t !in g.completed
  {
  }

  lemma {:induction false} RemovedKeeps(g: Graph, d: Data)
    requires Valid(g)
    ensures var g' := MarkDataRemoved(g, d);
            && Valid(g') && Tasks(g') == Tasks(g) && (Live(g) ==> Live(g'))
            && g'.deps == g.deps && g'.available == g.available - {d}
            && forall t :: t in g'.ready <==> t in g.ready && d !in g.deps[t]
  {
  }

  /** Removing data keeps the index complete exactly when every pending task that uses the data
      was waiting for it already. */
  lemma {:induction false} RemovedKeepsIndexedIff(g: Graph, d: Data)
    requires Valid(g) && Indexed(g)
    ensures Indexed(MarkDataRemoved(g, d)) <==>
            forall t :: t in g.pending && t in g.deps && d in g.deps[t] ==> (d, t) in g.index
  {
  }

  // ---------------------------------------------------------------------------
  // Runs
  // ---------------------------------------------------------------------------

  datatype Op = Add(t: Id, inputs: seq<Data>) | Remove(t: Id) | Arrives(d: Data) | Vanishes(d: Data)

  ghost predicate CanApply(g: Graph, op: Op) { op.Add? ==> op.t !in Tasks(g) }

  ghost function Apply(g: Graph, op: Op): Graph {
    match op
    case Add(t, inputs) => AddTask(g, t, inputs)
    case Remove(t) => RemoveTask(g, t)
    case Arrives(d) => MarkDataReady(g, d)
    case Vanishes(d) => MarkDataRemoved(g, d)
  }

  ghost predicate IsRun(g: Graph, ops: seq<Op>)
    decreases |ops|
  {
    ops == [] || (CanApply(g, ops[0]) && IsRun(Apply(g, ops[0]), ops[1..]))
  }

  ghost function After(g: Graph, ops: seq<Op>): Graph
    decreases |ops|
  {
    if ops == [] then g else After(Apply(g, ops[0]), ops[1..])
  }

  lemma {:induction false} ApplyKeepsValid(g: Graph, op: Op)
    requires Valid(g) && CanApply(g, op)
    ensures Valid(Apply(g, op))
  {
  }

  /** The graph is well formed in every run; in particular a ready task always has its inputs. */
  lemma {:induction false} RunKeepsValid(g: Graph, ops: seq<Op>)
    requires Valid(g) && IsRun(g, ops)
    ensures Valid(After(g, ops))
    decreases |ops|
  {
    hide Valid, Apply;
    if ops != [] {
      ApplyKeepsValid(g, ops[0]);
      RunKeepsValid(Apply(g, ops[0]), ops[1..]);
    }
  }

  /** A run that never adds an id again and in which data does not vanish under a pending task. */
  ghost predicate Careful(g: Graph, ops: seq<Op>)
    decreases |ops|
  {
    ops == [] ||
    (&& (ops[0].Add? ==> ops[0].t !in g.completed)
     && (ops[0].Vanishes? ==>
           forall t :: t in g.pending && t in g.deps && ops[0].d in g.deps[t] ==> (ops[0].d, t) in g.index)
     && Careful(Apply(g, ops[0]), ops[1..]))
  }

  ghost predicate NeverReadded(g: Graph) { Tasks(g) !! g.completed }

  /** Along such a run no task is left pending with everything it needs. */
  lemma {:induction false} CarefulRunStaysLive(g: Graph, ops: seq<Op>)
    requires Valid(g) && Indexed(g) && Live(g) && NeverReadded(g) && IsRun(g, ops) && Careful(g, ops)
    ensures Live(After(g, ops)) && Indexed(After(g, ops))
    decreases |ops|
  {
    if ops != [] {
      var op, g' := ops[0], Apply(g, ops[0]);
      ApplyKeepsValid(g, op);
      assert Indexed(g') && Live(g') && NeverReadded(g') by {
        hide IsRun, Careful;
        match op {
          case Add(t, inputs) => AddKeeps(g, t, inputs);
          case Remove(t) => RemoveKeeps(g, t);
          case Arrives(d) =>
            ReadyKeeps(g, d);
            ReadyKeepsLiveIff(g, d);
            LastMissingIsListed(g, d);
          case Vanishes(d) =>
            RemovedKeeps(g, d);
            RemovedKeepsIndexedIff(g, d);
        }
      }
      CarefulRunStaysLive(g', ops[1..]);
    }
  }

  lemma {:induction false} LastMissingIsListed(g: Graph, d: Data)
    requires Valid(g) && Indexed(g) && Live(g)
    ensures forall t :: t in g.pending && t in g.deps && AllMet(g.available + {d}, g.deps[t]) ==> (d, t) in g.index
  {
  }

  lemma {:induction false} StepLeavesStuck(g: Graph, op: Op, t: Id)
    requires Valid(g) && CanApply(g, op) && t in g.pending && t in g.completed && op != Remove(t)
    ensures t in Apply(g, op).pending && t in Apply(g, op).completed && t !in Apply(g, op).ready
  {
  }

  /** A task that was removed and added again, as a requeued or restarted task is, and that is
      pending then, stays pending for good: whatever arrives, it becomes ready in no run that does
      not remove it once more. */
  lemma {:induction false} ReaddedTaskIsStuck(g: Graph, ops: seq<Op>, t: Id)
    requires Valid(g) && t in g.pending && t in g.completed
    requires IsRun(g, ops) && Remove(t) !in ops
    ensures t in After(g, ops).pending && t !in After(g, ops).ready
    decreases |ops|
  {
    if ops != [] {
      ApplyKeepsValid(g, ops[0]);
      StepLeavesStuck(g, ops[0], t);
      hide Valid, Apply, CanApply;
      ReaddedTaskIsStuck(Apply(g, ops[0]), ops[1..], t);
    }
  }

  /** So the requeue of a task whose input is missing loses the task. */
  lemma {:induction false} RequeueExample()
    ensures var ops := [Add(7, ["x"]), Remove(7), Add(7, ["x"]), Arrives("x")];
            IsRun(Empty(), ops) && 7 in After(Empty(), ops).pending && "x" in After(Empty(), ops).available
  {
  }

  /** A pending task that loses an input it already had is not listed under it, so the input's
      return goes unnoticed. */
  lemma {:induction false} VanishExample()
    ensures var ops := [Arrives("a"), Add(7, ["a", "b"]), Vanishes("a"), Arrives("b"), Arrives("a")];
            && IsRun(Empty(), ops) && 7 in After(Empty(), ops).pending
            && AllMet(After(Empty(), ops).available, ["a", "b"])
  {
    var g2 := Graph(map[7 := ["a", "b"]], {"a"}, {}, {7}, {}, {("b", 7)});
    VanishBegins(g2);
    VanishContinues(g2);
    var ops := [Arrives("a"), Add(7, ["a", "b"]), Vanishes("a"), Arrives("b"), Arrives("a")];
    hide Apply, CanApply;
    var g1 := Apply(Empty(), ops[0]);
    assert ops[1..] == [ops[1], ops[2], ops[3], ops[4]] && ops[1..][1..] == [ops[2], ops[3], ops[4]];
    assert IsRun(g1, ops[1..]) && After(g1, ops[1..]) == After(g2, [ops[2], ops[3], ops[4]]);
  }

  lemma {:induction false} VanishBegins(g2: Graph)
    requires g2 == Graph(map[7 := ["a", "b"]], {"a"}, {}, {7}, {}, {("b", 7)})
    ensures var g1 := Apply(Empty(), Arrives("a"));
            && CanApply(Empty(), Arrives("a")) && CanApply(g1, Add(7, ["a", "b"]))
               && Apply(g1, Add(7, ["a", "b"])) == g2
  {
    var g1 := MarkDataReady(Empty(), "a");
    assert g1.available == {"a"} && g1.index == {} && g1.ready == {} && g1.pending == {};
    assert "b" in ["a", "b"] && "a" in ["a", "b"];
    assert Misses({"a"}, ["a", "b"], 7) == {("b", 7)};
  }

  lemma {:induction false} VanishContinues(g2: Graph)
    requires g2 == Graph(map[7 := ["a", "b"]], {"a"}, {}, {7}, {}, {("b", 7)})
    ensures var ops := [Vanishes("a"), Arrives("b"), Arrives("a")];
            && IsRun(g2, ops) && 7 in After(g2, ops).pending && AllMet(After(g2, ops).available, ["a", "b"])
  {
  }

  // ---------------------------------------------------------------------------
  // The code
  // ---------------------------------------------------------------------------

  lemma {:induction false} EntriesStep(g: Graph, done: set<Id>, t: Id, left: set<(Data, Id)>)
    requires t in g.deps
    requires left == set e | e in g.index - Entries(g, done) && !(e.1 == t && e.0 in g.deps[t])
    ensures left == g.index - Entries(g, done + {t})
  {
  }

  lemma {:induction false} MissesStep(g: Graph, done: set<Id>, t: Id, available: set<Data>,
                                      before: set<(Data, Id)>, after: set<(Data, Id)>)
    requires t in g.deps
    requires before == g.index + MissesOf(g, done, available)
    requires after == before + Misses(available, g.deps[t], t)
    ensures after == g.index + MissesOf(g, done + {t}, available)
  {
  }

  ghost function Pairs(m: map<Data, set<Id>>): set<(Data, Id)> {
    set d, t | d in m && t in m[d] :: (d, t)
  }

  ghost function ListOf(m: map<Data, set<Id>>, d: Data): set<Id> {
    if d in m then m[d] else {}
  }

  lemma {:induction false} InPairs(m: map<Data, set<Id>>, d: Data, t: Id)
    ensures (d, t) in Pairs(m) <==> t in ListOf(m, d)
  {
  }

  lemma {:induction false} PairsWith(m: map<Data, set<Id>>, m': map<Data, set<Id>>, d: Data, t: Id)
    requires forall e :: ListOf(m', e) == if e == d then ListOf(m, e) + {t} else ListOf(m, e)
    ensures Pairs(m') == Pairs(m) + {(d, t)}
  {
    forall p: (Data, Id) ensures p in Pairs(m') <==> p in Pairs(m) + {(d, t)} {
      InPairs(m, p.0, p.1);
      InPairs(m', p.0, p.1);
    }
  }

  lemma {:induction false} PairsWithout(m: map<Data, set<Id>>, m': map<Data, set<Id>>, d: Data, t: Id)
    requires forall e :: ListOf(m', e) == if e == d then ListOf(m, e) - {t} else ListOf(m, e)
    ensures Pairs(m') == Pairs(m) - {(d, t)}
  {
    forall p: (Data, Id) ensures p in Pairs(m') <==> p in Pairs(m) - {(d, t)} {
      InPairs(m, p.0, p.1);
      InPairs(m', p.0, p.1);
    }
  }

  /** The tasks listed under d are pending, and only they can be promoted. */
  lemma {:induction false} Affected(g: Graph, m: map<Data, set<Id>>, d: Data)
    requires Valid(g) && g.index == Pairs(m)
    ensures forall t :: t in ListOf(m, d) ==> t in g.pending && t in g.deps && t !in g.ready
    ensures forall t :: t in Promoted(g, d) <==>
              t in ListOf(m, d) && t in g.deps && t !in g.completed && AllMet(g.available + {d}, g.deps[t])
  {
    forall t ensures (d, t) in g.index <==> t in ListOf(m, d) {
      InPairs(m, d, t);
    }
  }

  lemma {:induction false} NothingDone(g: Graph)
    ensures Entries(g, {}) == {} && forall a :: MissesOf(g, {}, a) == {}
  {
  }

  class DependencyGraph {
    var taskDependencies: map<Id, seq<Data>>
    var dataReady: set<Data>
    var readyTasks: set<Id>
    var pendingTasks: set<Id>
    var completedTasks: set<Id>
    var dataToPending: map<Data, set<Id>>

    constructor ()
      ensures View() == Empty()
    {
      taskDependencies, dataReady, readyTasks, pendingTasks := map[], {}, {}, {};
      completedTasks, dataToPending := {}, map[];
    }

    ghost function Listing(): set<(Data, Id)>
      reads `dataToPending
    {
      Pairs(dataToPending)
    }

    ghost function View(): Graph
      reads this
    {
      Graph(taskDependencies, dataReady, readyTasks, pendingTasks, completedTasks, Listing())
    }

    method Enlist(d: Data, t: Id)
      modifies `dataToPending
      ensures Listing() == old(Listing()) + {(d, t)}
    {
      var ts := if d in dataToPending then dataToPending[d] else {};
      dataToPending := dataToPending[d := ts + {t}];
      PairsWith(old(dataToPending), dataToPending, d, t);
    }

    /** Empty lists are dropped. */
    method Delist(d: Data, t: Id)
      modifies `dataToPending
      ensures Listing() == old(Listing()) - {(d, t)}
    {
      if d in dataToPending {
        var ts := dataToPending[d] - {t};
        dataToPending := if ts == {} then dataToPending - {d} else dataToPending[d := ts];
      }
      PairsWithout(old(dataToPending), dataToPending, d, t);
    }

    method Add(taskId: Id, inputs: seq<Data>)
      requires taskId !in taskDependencies
      modifies this
      ensures View() == AddTask(old(View()), taskId, inputs)
    {
      taskDependencies := taskDependencies[taskId := inputs];
      var missing := 0;
      for i := 0 to |inputs|
        modifies `dataToPending
        invariant missing == 0 <==> AllMet(dataReady, inputs[..i])
        invariant missing >= 0
        invariant Listing() == old(Listing()) + Misses(dataReady, inputs[..i], taskId)
      {
        assert inputs[..i + 1] == inputs[..i] + [inputs[i]];
        if inputs[i] !in dataReady {
          missing := missing + 1;
          Enlist(inputs[i], taskId);
        }
      }
      assert inputs[..|inputs|] == inputs;
      if missing == 0 {
        readyTasks := readyTasks + {taskId};
      } else {
        pendingTasks := pendingTasks + {taskId};
      }
    }

    method Satisfied(inputs: seq<Data>) returns (met: bool)
      ensures met == AllMet(dataReady, inputs)
    {
      for i := 0 to |inputs|
        invariant AllMet(dataReady, inputs[..i])
      {
        if inputs[i] !in dataReady {
          return false;
        }
        assert inputs[..i + 1] == inputs[..i] + [inputs[i]];
      }
      assert inputs[..|inputs|] == inputs;
      met := true;
    }

    method DelistAll(inputs: seq<Data>, taskId: Id)
      modifies `dataToPending
      ensures Listing() == set e | e in old(Listing()) && !(e.1 == taskId && e.0 in inputs)
    {
      for i := 0 to |inputs|
        invariant Listing() == set e | e in old(Listing()) && !(e.1 == taskId && e.0 in inputs[..i])
      {
        assert inputs[..i + 1] == inputs[..i] + [inputs[i]];
        Delist(inputs[i], taskId);
      }
      assert inputs[..|inputs|] == inputs;
    }

    /** Move a pending task whose inputs are all there; a task once removed is never moved. */
    method CheckAndMoveToReady(taskId: Id) returns (moved: bool)
      requires taskId in pendingTasks ==> taskId in taskDependencies
      modifies `pendingTasks, `readyTasks, `dataToPending
      ensures moved <==> taskId !in completedTasks && taskId !in old(readyTasks) && taskId in old(pendingTasks)
                         && AllMet(dataReady, taskDependencies[taskId])
      ensures moved ==>
                && pendingTasks == old(pendingTasks) - {taskId} && readyTasks == old(readyTasks) + {taskId}
                && Listing() == set e | e in old(Listing()) && !(e.1 == taskId && e.0 in taskDependencies[taskId])
      ensures !moved ==>
                pendingTasks == old(pendingTasks) && readyTasks == old(readyTasks) && Listing() == old(Listing())
    {
      if taskId in completedTasks || taskId in readyTasks || taskId !in pendingTasks {
        return false;
      }
      var met := Satisfied(taskDependencies[taskId]);
      if !met {
        return false;
      }
      pendingTasks := pendingTasks - {taskId};
      readyTasks := readyTasks + {taskId};
      DelistAll(taskDependencies[taskId], taskId);
      moved := true;
    }

    /** After the tasks in done were promoted out of graph g, in which d has arrived. */
    ghost predicate Promoting(g: Graph, d: Data, done: set<Id>)
      reads this
    {
      View() == g.(available := g.available + {d}, ready := g.ready + done, pending := g.pending - done,
                   index := g.index - Entries(g, done))
    }

    method CheckOne(t: Id, ghost g: Graph, ghost d: Data, ghost done: set<Id>)
      requires Promoting(g, d, done) && t in g.pending && t in g.deps && t !in g.ready && t !in done
      requires t in Promoted(g, d) <==> t !in g.completed && AllMet(g.available + {d}, g.deps[t])
      modifies `pendingTasks, `readyTasks, `dataToPending
      ensures Promoting(g, d, if t in Promoted(g, d) then done + {t} else done)
    {
      hide Entries, AllMet, Pairs, Promoted;
      var moved := CheckAndMoveToReady(t);
      assert moved == (t in Promoted(g, d));
      if moved {
        EntriesStep(g, done, t, Listing());
        assert (g.ready + done) + {t} == g.ready + (done + {t});
        assert (g.pending - done) - {t} == g.pending - (done + {t});
      }
    }

    /** Check every task listed under the data that has arrived. */
    method CheckAll(affected: set<Id>, ghost g: Graph, ghost d: Data)
      requires View() == g.(available := g.available + {d})
      requires forall t :: t in affected ==> t in g.pending && t in g.deps && t !in g.ready
      requires forall t :: t in Promoted(g, d) <==>
                 t in affected && t in g.deps && t !in g.completed && AllMet(g.available + {d}, g.deps[t])
      modifies `pendingTasks, `readyTasks, `dataToPending
      ensures readyTasks == g.ready + Promoted(g, d) && pendingTasks == g.pending - Promoted(g, d)
      ensures Listing() == g.index - Entries(g, Promoted(g, d))
    {
      NothingDone(g);
      hide Entries, AllMet, Pairs, Promoted;
      ghost var done := {};
      var todo := affected;
      while todo != {}
        invariant todo <= affected && done == Promoted(g, d) - todo && Promoting(g, d, done)
        decreases |todo|
      {
        var t :| t in todo;
        DoneStep(Promoted(g, d), todo, done, t, {});
        CheckOne(t, g, d, done);
        done := if t in Promoted(g, d) then done + {t} else done;
        todo := todo - {t};
      }
      assert done == Promoted(g, d);
    }

    method MarkReady(dataPath: Data)
      requires Valid(View())
      modifies this
      ensures View() == MarkDataReady(old(View()), dataPath)
    {
      ghost var g := View();
      dataReady := dataReady + {dataPath};
      var affected := if dataPath in dataToPending then dataToPending[dataPath] else {};
      Affected(g, dataToPending, dataPath);
      hide Entries, AllMet, Pairs, Promoted, Valid;
      CheckAll(affected, g, dataPath);
    }

    method EnlistMissing(taskId: Id, inputs: seq<Data>)
      modifies `dataToPending
      ensures Listing() == old(Listing()) + Misses(dataReady, inputs, taskId)
    {
      for i := 0 to |inputs|
        invariant Listing() == old(Listing()) + Misses(dataReady, inputs[..i], taskId)
      {
        assert inputs[..i + 1] == inputs[..i] + [inputs[i]];
        if inputs[i] !in dataReady {
          Enlist(inputs[i], taskId);
        }
      }
      assert inputs[..|inputs|] == inputs;
    }

    /** Back to pending, listed under every input that is missing now. */
    method DemoteAll(toPending: set<Id>, ghost g: Graph)
      requires View() == g.(available := dataReady)
      requires forall t :: t in toPending ==> t in g.deps
      modifies `pendingTasks, `readyTasks, `dataToPending
      ensures readyTasks == g.ready - toPending && pendingTasks == g.pending + toPending
      ensures Listing() == g.index + MissesOf(g, toPending, dataReady)
    {
      NothingDone(g);
      hide Misses, MissesOf, Pairs;
      ghost var done := {};
      var todo := toPending;
      while todo != {}
        invariant done == toPending - todo && todo <= toPending
        invariant readyTasks == g.ready - done && pendingTasks == g.pending + done
        invariant Listing() == g.index + MissesOf(g, done, dataReady)
        decreases |todo|
      {
        var t :| t in todo;
        DoneStep(toPending, todo, done, t, g.ready);
        DoneStep(toPending, todo, done, t, g.pending);
        readyTasks := readyTasks - {t};
        pendingTasks := pendingTasks + {t};
        ghost var before := Listing();
        EnlistMissing(t, taskDependencies[t]);
        MissesStep(g, done, t, dataReady, before, Listing());
        done := done + {t};
        todo := todo - {t};
      }
      assert done == toPending;
    }

    method MarkRemoved(dataPath: Data)
      requires Valid(View())
      modifies this
      ensures View() == MarkDataRemoved(old(View()), dataPath)
    {
      hide Misses, MissesOf, Pairs, AllMet;
      ghost var g := View();
      dataReady := dataReady - {dataPath};
      var toPending := set t | t in readyTasks && t in taskDependencies && dataPath in taskDependencies[t];
      DemoteAll(toPending, g);
      assert toPending == Demoted(g, dataPath);
    }

    method Remove(taskId: Id)
      modifies this
      ensures View() == RemoveTask(old(View()), taskId)
    {
      readyTasks := readyTasks - {taskId};
      pendingTasks := pendingTasks - {taskId};
      completedTasks := completedTasks + {taskId};
      if taskId in taskDependencies {
        DelistAll(taskDependencies[taskId], taskId);
      }
      taskDependencies := taskDependencies - {taskId};
    }
  }
}

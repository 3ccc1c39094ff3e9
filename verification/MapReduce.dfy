/**
 The MapReduce planner (src/fly/mapreduce.py): partition, process, merge, finalize, clean up.

 The planner submits tasks that talk only through named objects. A task may run once all
 of its declared inputs exist, in any order the scheduler likes, so every property is
 stated for every dependency-respecting run of the submitted tasks.
 */
module MapReduce {
  import opened Common

  datatype Result<+T> = Ok(value: T) | Err(message: string)

  /** Objects of one job. The random job id keeps the generated names apart from each other
      and from the caller's names, which are User keys. */
  datatype Key =
    | Part(i: nat) | Placeholder | Proc(i: nat) | MergeOut(stage: nat, id: nat) | Merged
    | User(name: string)

  datatype Task =
    | Partition(n: nat)
    | Process(i: nat, input: Key)
    | SummaryMerge(stage: nat, id: nat, inputs: seq<Key>)
    | FullMerge(inputs: seq<Key>, output: Key)
    | Finalize(output: Key, input: Key)
    | CopyOut(source: Key, output: Key)
    | Cleanup(keys: seq<Key>, output: Key)

  ghost function KeySet(keys: seq<Key>): set<Key> {
    set k | k in keys
  }

  /** Declared inputs: what must exist before the task may run. */
  ghost function Reads(t: Task): set<Key> {
    match t
    case Partition(_) => {}
    case Process(_, input) => {input}
    case SummaryMerge(_, _, inputs) => KeySet(inputs)
    case FullMerge(inputs, _) => KeySet(inputs)
    case Finalize(_, input) => {input}
    case CopyOut(source, _) => {source}
    case Cleanup(_, output) => {output}
  }

  ghost function Writes(t: Task): set<Key> {
    match t
    case Partition(n) => set i | 0 <= i < n :: Part(i)
    case Process(i, _) => {Proc(i)}
    case SummaryMerge(stage, id, _) => {MergeOut(stage, id)}
    case FullMerge(_, output) => {output}
    case Finalize(output, _) => {output}
    case CopyOut(_, output) => {output}
    case Cleanup(_, _) => {}
  }

  // ---------------------------------------------------------------------------
  // Left folds and batched folds
  // ---------------------------------------------------------------------------

  ghost function Fold<V>(f: (V, V) -> V, xs: seq<V>): V
    requires xs != []
  {
    if |xs| == 1 then xs[0] else f(Fold(f, xs[..|xs| - 1]), xs[|xs| - 1])
  }

  ghost predicate Associative<V(!new)>(f: (V, V) -> V) {
    forall x, y, z :: f(f(x, y), z) == f(x, f(y, z))
  }

  lemma {:induction false} FoldConcat<V(!new)>(f: (V, V) -> V, xs: seq<V>, ys: seq<V>)
    requires Associative(f) && xs != [] && ys != []
    ensures Fold(f, xs + ys) == f(Fold(f, xs), Fold(f, ys))
    decreases |ys|
  {
    var last := ys[|ys| - 1];
    assert (xs + ys)[..|xs + ys| - 1] == xs + ys[..|ys| - 1];
    if |ys| == 1 {
      assert xs + ys[..0] == xs;
    } else {
      FoldConcat(f, xs, ys[..|ys| - 1]);
      assert f(f(Fold(f, xs), Fold(f, ys[..|ys| - 1])), last) == f(Fold(f, xs), f(Fold(f, ys[..|ys| - 1]), last));
    }
  }

  /** Body of the merge tasks: the first item, then each next one merged in. */
  method MergeItems<V>(merge: (V, V) -> V, items: seq<V>) returns (merged: V)
    requires items != []
    ensures merged == Fold(merge, items)
  {
    merged := items[0];
    for i := 1 to |items|
      invariant merged == Fold(merge, items[..i])
    {
      assert items[..i + 1][..i] == items[..i];
      merged := merge(merged, items[i]);
    }
    assert items[..|items|] == items;
  }

  /** Consecutive batches of at most fan elements. */
  ghost function Batches<T>(xs: seq<T>, fan: nat): (bs: seq<seq<T>>)
    requires fan > 0
    ensures xs != [] ==> 0 < |bs| <= |xs|
    ensures |xs| > 1 && fan > 1 ==> |bs| < |xs|
    ensures forall i :: 0 <= i < |bs| ==> bs[i] != []
  {
    if xs == [] then []
    else if |xs| <= fan then [xs]
    else [xs[..fan]] + Batches(xs[fan..], fan)
  }

  ghost function MapFold<V>(f: (V, V) -> V, bs: seq<seq<V>>): (r: seq<V>)
    requires forall i :: 0 <= i < |bs| ==> bs[i] != []
    ensures |r| == |bs|
    ensures forall i :: 0 <= i < |bs| ==> r[i] == Fold(f, bs[i])
  {
    seq(|bs|, i requires 0 <= i < |bs| => Fold(f, bs[i]))
  }

  /** Folding the batches and then their results is folding everything. */
  lemma {:induction false} FoldOfBatches<V(!new)>(f: (V, V) -> V, xs: seq<V>, fan: nat)
    requires Associative(f) && fan > 0 && xs != []
    ensures Fold(f, MapFold(f, Batches(xs, fan))) == Fold(f, xs)
    decreases |xs|
  {
    FirstBatch(f, xs, fan);
    hide Associative, Fold, Batches, MapFold;
    if |xs| <= fan {
      FoldOne(f, Fold(f, xs));
    } else {
      var head, tail := xs[..fan], xs[fan..];
      FoldOfBatches(f, tail, fan);
      FoldConcat(f, head, tail);
      assert head + tail == xs;
      FoldConcat(f, [Fold(f, head)], MapFold(f, Batches(tail, fan)));
      FoldOne(f, Fold(f, head));
    }
  }

  lemma {:induction false} FoldOne<V>(f: (V, V) -> V, x: V)
    ensures Fold(f, [x]) == x
  {
  }

  lemma {:induction false} FirstBatch<V>(f: (V, V) -> V, xs: seq<V>, fan: nat)
    requires fan > 0 && xs != []
    ensures |xs| <= fan ==> MapFold(f, Batches(xs, fan)) == [Fold(f, xs)]
    ensures |xs| > fan ==> MapFold(f, Batches(xs, fan)) == [Fold(f, xs[..fan])] + MapFold(f, Batches(xs[fan..], fan))
    ensures |xs| > fan ==> MapFold(f, Batches(xs[fan..], fan)) != []
  {
  }

  // ---------------------------------------------------------------------------
  // What the planner submits
  // ---------------------------------------------------------------------------

  ghost function ProcKeys(n: nat): (ks: seq<Key>)
    ensures |ks| == n && forall i :: 0 <= i < n ==> ks[i] == Proc(i)
  {
    seq(n, i requires 0 <= i < n => Proc(i))
  }

  ghost function PartKeys(n: nat): (ks: seq<Key>)
    ensures |ks| == n && forall i :: 0 <= i < n ==> ks[i] == Part(i)
  {
    seq(n, i requires 0 <= i < n => Part(i))
  }

  ghost function UserKeys(names: seq<string>): (ks: seq<Key>)
    ensures |ks| == |names| && forall i :: 0 <= i < |ks| ==> ks[i] == User(names[i])
  {
    seq(|names|, i requires 0 <= i < |names| => User(names[i]))
  }

  ghost function StageOuts(stage: nat, n: nat): (ks: seq<Key>)
    ensures |ks| == n && forall i :: 0 <= i < n ==> ks[i] == MergeOut(stage, i)
  {
    seq(n, i requires 0 <= i < n => MergeOut(stage, i))
  }

  ghost function ProcessTasks(parts: seq<Key>): (ts: seq<Task>)
    ensures |ts| == |parts| && forall i :: 0 <= i < |ts| ==> ts[i] == Process(i, parts[i])
  {
    seq(|parts|, i requires 0 <= i < |parts| => Process(i, parts[i]))
  }

  ghost function StageTasks(stage: nat, batches: seq<seq<Key>>): (ts: seq<Task>)
    ensures |ts| == |batches| && forall i :: 0 <= i < |ts| ==> ts[i] == SummaryMerge(stage, i, batches[i])
  {
    seq(|batches|, i requires 0 <= i < |batches| => SummaryMerge(stage, i, batches[i]))
  }

  /** Tree reduction: one merge task per batch, stage after stage, until one key is left. */
  ghost function TreeTasks(keys: seq<Key>, fan: nat, stage: nat): seq<Task>
    requires |keys| > 1 ==> fan > 1
    decreases |keys|
  {
    if |keys| <= 1 then []
    else
      var bs := Batches(keys, fan);
      StageTasks(stage, bs) + TreeTasks(StageOuts(stage, |bs|), fan, stage + 1)
  }

  ghost function TreeRoot(keys: seq<Key>, fan: nat, stage: nat): Key
    requires keys != [] && (|keys| > 1 ==> fan > 1)
    decreases |keys|
  {
    if |keys| == 1 then keys[0]
    else TreeRoot(StageOuts(stage, |Batches(keys, fan)|), fan, stage + 1)
  }

  /** Everything that decides the shape of the submitted task graph. partitions is the number
      of partitions found by the dry run; preset names already written partition objects. */
  datatype Setup = Setup(preset: Option<seq<string>>, partitions: nat, summary: bool, finalizer: bool,
                         keepIntermediate: bool, outputName: string)
  {
    ghost function N(): nat { if preset.Some? then |preset.value| else partitions }
    ghost function Parts(): (ks: seq<Key>)
      ensures |ks| == N()
    {
      if preset.Some? then UserKeys(preset.value) else PartKeys(partitions)
    }
    ghost function Output(): Key { User(outputName) }
    ghost function FanIn(): nat { if N() < 8 then N() else 8 }
    ghost function PartitionTasks(): seq<Task> { if preset.Some? then [] else [Partition(partitions)] }
    ghost function MergeTasks(): seq<Task>
      requires summary ==> N() > 0
    {
      if summary then TreeTasks(ProcKeys(N()), FanIn(), 0) else [FullMerge(ProcKeys(N()), Merged)]
    }
    ghost function MergeRoot(): Key
      requires summary ==> N() > 0
    {
      if summary then TreeRoot(ProcKeys(N()), FanIn(), 0) else Merged
    }
    ghost function LastTask(): Task
      requires summary ==> N() > 0
    {
      if finalizer then Finalize(Output(), MergeRoot()) else CopyOut(MergeRoot(), Output())
    }
    /** Everything but the cleanup. */
    ghost function Tasks(): seq<Task>
      requires summary ==> N() > 0
    {
      PartitionTasks() + ProcessTasks(Parts()) + MergeTasks() + [LastTask()]
    }
    /** What is submitted after the partition phase, with the cleanup. */
    ghost function Rest(): seq<Task>
      requires summary ==> N() > 0
    {
      ProcessTasks(Parts()) + MergeTasks() + [LastTask()]
      + if keepIntermediate then [] else [Cleanup(Intermediate(), Output())]
    }
    ghost function Intermediate(): seq<Key>
      requires summary ==> N() > 0
    {
      (if preset.Some? then seq(N(), _ => Placeholder) else Parts()) + ProcKeys(N()) + [MergeRoot()]
    }
  }

  // ---------------------------------------------------------------------------
  // Data flow of a task list
  // ---------------------------------------------------------------------------

  /** In list order, every input is available and every output is new. */
  ghost predicate Flows(ts: seq<Task>, avail: set<Key>) {
    ts == [] ||
    (Reads(ts[0]) <= avail && Writes(ts[0]) !! avail && Flows(ts[1..], avail + Writes(ts[0])))
  }

  ghost function Avail(ts: seq<Task>, avail: set<Key>): set<Key> {
    if ts == [] then avail else Avail(ts[1..], avail + Writes(ts[0]))
  }

  /** Outputs nobody later in the list reads. */
  ghost function Unread(ts: seq<Task>, unread: set<Key>): set<Key> {
    if ts == [] then unread else Unread(ts[1..], (unread - Reads(ts[0])) + Writes(ts[0]))
  }

  lemma {:induction false} FlowsConcat(a: seq<Task>, b: seq<Task>, avail: set<Key>, unread: set<Key>)
    requires Flows(a, avail) && Flows(b, Avail(a, avail))
    ensures Flows(a + b, avail)
    ensures Avail(a + b, avail) == Avail(b, Avail(a, avail))
    ensures Unread(a + b, unread) == Unread(b, Unread(a, unread))
    decreases |a|
  {
    if a == [] {
      assert a + b == b;
    } else {
      assert (a + b)[0] == a[0] && (a + b)[1..] == a[1..] + b;
      FlowsConcat(a[1..], b, avail + Writes(a[0]), (unread - Reads(a[0])) + Writes(a[0]));
    }
  }

  ghost function AllReads(ts: seq<Task>): set<Key> {
    if ts == [] then {} else Reads(ts[0]) + AllReads(ts[1..])
  }

  ghost function AllWrites(ts: seq<Task>): set<Key> {
    if ts == [] then {} else Writes(ts[0]) + AllWrites(ts[1..])
  }

  ghost predicate DistinctWrites(ts: seq<Task>) {
    forall i, j :: 0 <= i < j < |ts| ==> Writes(ts[i]) !! Writes(ts[j])
  }

  /** Tasks of one phase do not read each other's outputs. */
  lemma {:induction false} PhaseFlows(ts: seq<Task>, avail: set<Key>, unread: set<Key>)
    requires AllReads(ts) <= avail && AllWrites(ts) !! avail && DistinctWrites(ts)
    ensures Flows(ts, avail)
    ensures Avail(ts, avail) == avail + AllWrites(ts)
    ensures unread <= avail ==> Unread(ts, unread) == (unread - AllReads(ts)) + AllWrites(ts)
    decreases |ts|
  {
    if ts != [] {
      var rest := ts[1..];
      assert Writes(ts[0]) !! AllWrites(rest) by {
        forall k | k in AllWrites(rest) ensures k !in Writes(ts[0]) {
          var j := WriterOf(rest, k);
          assert rest[j] == ts[j + 1];
        }
      }
      PhaseFlows(rest, avail + Writes(ts[0]), (unread - Reads(ts[0])) + Writes(ts[0]));
      if unread <= avail {
        assert Writes(ts[0]) !! AllReads(rest);
      }
    }
  }

  lemma {:induction false} WriterOf(ts: seq<Task>, k: Key) returns (j: nat)
    requires k in AllWrites(ts)
    ensures j < |ts| && k in Writes(ts[j])
    decreases |ts|
  {
    if k in Writes(ts[0]) {
      j := 0;
    } else {
      j := WriterOf(ts[1..], k);
      j := j + 1;
    }
  }

  lemma {:induction false} InAllWrites(ts: seq<Task>, i: nat)
    requires i < |ts|
    ensures Writes(ts[i]) <= AllWrites(ts) && Reads(ts[i]) <= AllReads(ts)
    decreases |ts|
  {
    if i > 0 {
      InAllWrites(ts[1..], i - 1);
    }
  }

  lemma {:induction false} ReaderOf(ts: seq<Task>, k: Key) returns (j: nat)
    requires k in AllReads(ts)
    ensures j < |ts| && k in Reads(ts[j])
    decreases |ts|
  {
    if k in Reads(ts[0]) {
      j := 0;
    } else {
      j := ReaderOf(ts[1..], k);
      j := j + 1;
    }
  }

  /** An output that does not stay unread is read by some later task. */
  lemma {:induction false} Consumer(ts: seq<Task>, unread: set<Key>, i: nat, k: Key) returns (j: nat)
    requires i < |ts| && k in Writes(ts[i]) && k !in Unread(ts, unread)
    ensures i < j < |ts| && k in Reads(ts[j])
    decreases |ts|
  {
    var rest := (unread - Reads(ts[0])) + Writes(ts[0]);
    if i == 0 {
      j := ReadSomewhere(ts[1..], rest, k);
    } else {
      j := Consumer(ts[1..], rest, i - 1, k);
    }
    j := j + 1;
  }

  lemma {:induction false} ReadSomewhere(ts: seq<Task>, unread: set<Key>, k: Key) returns (j: nat)
    requires k in unread && k !in Unread(ts, unread)
    ensures j < |ts| && k in Reads(ts[j])
    decreases |ts|
  {
    if k in Reads(ts[0]) {
      j := 0;
    } else {
      j := ReadSomewhere(ts[1..], (unread - Reads(ts[0])) + Writes(ts[0]), k);
      j := j + 1;
    }
  }

  lemma {:induction false} WritesAreNew(ts: seq<Task>, avail: set<Key>, i: nat)
    requires Flows(ts, avail) && i < |ts|
    ensures Writes(ts[i]) !! avail
    decreases |ts|
  {
    if i > 0 {
      WritesAreNew(ts[1..], avail + Writes(ts[0]), i - 1);
    }
  }

  lemma {:induction false} OneWriter(ts: seq<Task>, avail: set<Key>, i: nat, j: nat)
    requires Flows(ts, avail) && i < j < |ts|
    ensures Writes(ts[i]) !! Writes(ts[j])
    decreases |ts|
  {
    if i == 0 {
      WritesAreNew(ts[1..], avail + Writes(ts[0]), j - 1);
    } else {
      OneWriter(ts[1..], avail + Writes(ts[0]), i - 1, j - 1);
    }
  }

  lemma {:induction false} ReadsAvailable(ts: seq<Task>, avail: set<Key>, i: nat)
    requires Flows(ts, avail) && i < |ts|
    ensures Reads(ts[i]) <= Avail(ts[..i], avail)
    decreases |ts|
  {
    if i > 0 {
      ReadsAvailable(ts[1..], avail + Writes(ts[0]), i - 1);
      assert ts[..i][1..] == ts[1..][..i - 1];
    }
  }

  lemma {:induction false} AvailIs(ts: seq<Task>, avail: set<Key>)
    ensures Avail(ts, avail) == avail + AllWrites(ts)
    decreases |ts|
  {
    if ts != [] {
      AvailIs(ts[1..], avail + Writes(ts[0]));
    }
  }

  // ---------------------------------------------------------------------------
  // Data flow of the planned tasks
  // ---------------------------------------------------------------------------

  lemma {:induction false} BatchOf(keys: seq<Key>, fan: nat, k: Key) returns (i: nat)
    requires fan > 0 && k in keys
    ensures i < |Batches(keys, fan)| && k in Batches(keys, fan)[i]
    decreases |keys|
  {
    if |keys| <= fan || k in keys[..fan] {
      i := 0;
    } else {
      assert keys == keys[..fan] + keys[fan..];
      i := BatchOf(keys[fan..], fan, k);
      i := i + 1;
    }
  }

  lemma {:induction false} BatchWithin(keys: seq<Key>, fan: nat, i: nat)
    requires fan > 0 && i < |Batches(keys, fan)|
    ensures KeySet(Batches(keys, fan)[i]) <= KeySet(keys)
    decreases |keys|
  {
    if |keys| > fan && i > 0 {
      BatchWithin(keys[fan..], fan, i - 1);
    }
  }

  lemma {:induction false} StageReadsAndWrites(keys: seq<Key>, fan: nat, stage: nat)
    requires fan > 0
    ensures var ts := StageTasks(stage, Batches(keys, fan));
            && AllReads(ts) == KeySet(keys)
            && AllWrites(ts) == KeySet(StageOuts(stage, |ts|))
            && DistinctWrites(ts)
  {
    var bs := Batches(keys, fan);
    var ts := StageTasks(stage, bs);
    var outs := StageOuts(stage, |ts|);
    forall k ensures k in AllReads(ts) <==> k in KeySet(keys) {
      if k in AllReads(ts) {
        var j := ReaderOf(ts, k);
        BatchWithin(keys, fan, j);
      }
      if k in keys {
        var i := BatchOf(keys, fan, k);
        InAllWrites(ts, i);
      }
    }
    forall k ensures k in AllWrites(ts) <==> k in KeySet(outs) {
      if k in AllWrites(ts) {
        var j := WriterOf(ts, k);
        assert outs[j] == k;
      }
      if k in outs {
        var i :| 0 <= i < |outs| && outs[i] == k;
        InAllWrites(ts, i);
      }
    }
  }

  ghost predicate NoStageFrom(avail: set<Key>, stage: nat) {
    forall k :: k in avail && k.MergeOut? ==> k.stage < stage
  }

  /** The tree reads every key once per stage and leaves only its root unread. */
  lemma {:induction false} TreeFlows(keys: seq<Key>, fan: nat, stage: nat, avail: set<Key>)
    requires keys != [] && (|keys| > 1 ==> fan > 1)
    requires KeySet(keys) <= avail && NoStageFrom(avail, stage)
    ensures var ts := TreeTasks(keys, fan, stage);
            && Flows(ts, avail)
            && Unread(ts, KeySet(keys)) == {TreeRoot(keys, fan, stage)}
            && TreeRoot(keys, fan, stage) in Avail(ts, avail)
            && (forall k :: k in Avail(ts, avail) ==> k in avail || k.MergeOut?)
    decreases |keys|
  {
    if |keys| > 1 {
      var bs := Batches(keys, fan);
      var ts, outs := StageTasks(stage, bs), StageOuts(stage, |bs|);
      StageReadsAndWrites(keys, fan, stage);
      PhaseFlows(ts, avail, KeySet(keys));
      var avail' := avail + KeySet(outs);
      TreeFlows(outs, fan, stage + 1, avail');
      FlowsConcat(ts, TreeTasks(outs, fan, stage + 1), avail, KeySet(keys));
      assert Unread(ts, KeySet(keys)) == KeySet(outs);
    } else {
      assert keys == [keys[0]];
    }
  }

  lemma {:induction false} ProcessReadsAndWrites(parts: seq<Key>)
    ensures var ts := ProcessTasks(parts);
            && AllReads(ts) == KeySet(parts)
            && AllWrites(ts) == KeySet(ProcKeys(|parts|))
            && DistinctWrites(ts)
  {
    var ts, outs := ProcessTasks(parts), ProcKeys(|parts|);
    forall k ensures k in AllReads(ts) <==> k in KeySet(parts) {
      if k in AllReads(ts) {
        var j := ReaderOf(ts, k);
      }
      if k in parts {
        var i :| 0 <= i < |parts| && parts[i] == k;
        InAllWrites(ts, i);
      }
    }
    forall k ensures k in AllWrites(ts) <==> k in KeySet(outs) {
      if k in AllWrites(ts) {
        var j := WriterOf(ts, k);
        assert outs[j] == k;
      }
      if k in outs {
        var i :| 0 <= i < |outs| && outs[i] == k;
        InAllWrites(ts, i);
      }
    }
  }

  /** Where the job starts: its own keys do not exist, preset partitions do. */
  ghost predicate Starts(c: Setup, initial: set<Key>) {
    && c.N() > 0
    && (forall k :: k in initial ==> k.User?)
    && (c.preset.Some? ==> KeySet(c.Parts()) <= initial)
  }

  lemma {:induction false} FrontFlows(c: Setup, initial: set<Key>)
    requires Starts(c, initial)
    ensures var front := c.PartitionTasks() + ProcessTasks(c.Parts());
            && Flows(front, initial)
            && Avail(front, initial) == initial + KeySet(c.Parts()) + KeySet(ProcKeys(c.N()))
            && Unread(front, {}) == KeySet(ProcKeys(c.N()))
  {
    var a, b := c.PartitionTasks(), ProcessTasks(c.Parts());
    PartitionFlows(c, initial);
    ProcessReadsAndWrites(c.Parts());
    assert forall k :: k in Avail(a, initial) ==> k.User? || k.Part?;
    PhaseFlows(b, Avail(a, initial), Unread(a, {}));
    FlowsConcat(a, b, initial, {});
  }

  /** The submitted tasks form one flow whose only unread result is the job's output. */
  lemma {:induction false} PlanFlows(c: Setup, initial: set<Key>)
    requires Starts(c, initial) && c.Output() !in initial
    ensures Flows(c.Tasks(), initial)
    ensures Unread(c.Tasks(), {}) == {c.Output()}
  {
    var front, m, z := c.PartitionTasks() + ProcessTasks(c.Parts()), c.MergeTasks(), [c.LastTask()];
    FrontFlows(c, initial);
    var avail := Avail(front, initial);
    MergeFlows(c, avail);
    FlowsConcat(front, m, initial, {});
    LastFlows(c, Avail(m, avail));
    FlowsConcat(front + m, z, initial, {});
  }

  lemma {:induction false} LastFlows(c: Setup, avail: set<Key>)
    requires c.N() > 0 && c.MergeRoot() in avail && c.Output() !in avail
    ensures Flows([c.LastTask()], avail)
    ensures !c.MergeRoot().User? ==> Unread([c.LastTask()], {c.MergeRoot()}) == {c.Output()}
  {
  }

  lemma {:induction false} PartitionFlows(c: Setup, initial: set<Key>)
    requires Starts(c, initial)
    ensures var a := c.PartitionTasks();
            && Flows(a, initial)
            && Avail(a, initial) == initial + KeySet(c.Parts())
            && Unread(a, {}) == (if c.preset.Some? then {} else KeySet(c.Parts()))
  {
  }

  lemma {:induction false} MergeFlows(c: Setup, avail: set<Key>)
    requires c.N() > 0 && KeySet(ProcKeys(c.N())) <= avail
    requires forall k :: k in avail ==> k.User? || k.Part? || k.Proc?
    ensures var m := c.MergeTasks();
            && Flows(m, avail)
            && Unread(m, KeySet(ProcKeys(c.N()))) == {c.MergeRoot()}
            && c.MergeRoot() in Avail(m, avail) && !c.MergeRoot().User?
            && (forall k :: k in Avail(m, avail) ==> k in avail || k.MergeOut? || k.Merged?)
  {
    var procs := ProcKeys(c.N());
    if c.summary {
      TreeFlows(procs, c.FanIn(), 0, avail);
      TreeRootIsOwn(procs, c.FanIn(), 0);
    } else {
      assert c.MergeTasks()[1..] == [];
    }
  }

  lemma {:induction false} TreeRootIsOwn(keys: seq<Key>, fan: nat, stage: nat)
    requires keys != [] && (|keys| > 1 ==> fan > 1)
    requires forall i :: 0 <= i < |keys| ==> !keys[i].User?
    ensures !TreeRoot(keys, fan, stage).User?
    decreases |keys|
  {
    if |keys| > 1 {
      TreeRootIsOwn(StageOuts(stage, |Batches(keys, fan)|), fan, stage + 1);
    }
  }

  // ---------------------------------------------------------------------------
  // What tasks compute
  // ---------------------------------------------------------------------------

  /** The user's functions; parts is what the partition function returns for the input. */
  datatype Funcs<!V> = Funcs(parts: seq<V>, process: V -> V, merge: (V, V) -> V, finalize: V -> V)

  ghost predicate Runnable<V>(t: Task, f: Funcs<V>) {
    match t
    case Partition(n) => 0 < n == |f.parts|
    case SummaryMerge(_, _, inputs) => inputs != []
    case FullMerge(inputs, _) => inputs != []
    case Cleanup(_, _) => false
    case _ => true
  }

  ghost function Gather<V>(s: map<Key, V>, keys: seq<Key>): (vs: seq<V>)
    requires KeySet(keys) <= s.Keys
    ensures |vs| == |keys| && forall i :: 0 <= i < |keys| ==> vs[i] == s[keys[i]]
  {
    assert forall i :: 0 <= i < |keys| ==> keys[i] in KeySet(keys);
    seq(|keys|, i requires 0 <= i < |keys| => s[keys[i]])
  }

  /** The objects a task writes, as a function of the objects it reads. */
  ghost function Produced<V>(t: Task, s: map<Key, V>, f: Funcs<V>): (out: map<Key, V>)
    requires Runnable(t, f) && Reads(t) <= s.Keys
    ensures out.Keys == Writes(t)
  {
    match t
    case Partition(n) => map k | k in Writes(t) :: f.parts[k.i]
    case Process(i, input) => map[Proc(i) := f.process(s[input])]
    case SummaryMerge(stage, id, inputs) => map[MergeOut(stage, id) := Fold(f.merge, Gather(s, inputs))]
    case FullMerge(inputs, output) => map[output := Fold(f.merge, Gather(s, inputs))]
    case Finalize(output, input) => map[output := f.finalize(s[input])]
    case CopyOut(source, output) => map[output := s[source]]
  }

  ghost predicate AllRunnable<V>(ts: seq<Task>, f: Funcs<V>) {
    forall i :: 0 <= i < |ts| ==> Runnable(ts[i], f)
  }

  /** The store after running the tasks one by one in submission order. */
  ghost function Sequential<V>(ts: seq<Task>, s: map<Key, V>, f: Funcs<V>): (r: map<Key, V>)
    requires Flows(ts, s.Keys) && AllRunnable(ts, f)
    ensures r.Keys == Avail(ts, s.Keys)
    ensures forall k :: k in s ==> k in r && r[k] == s[k]
    decreases |ts|
  {
    if ts == [] then s else Sequential(ts[1..], s + Produced(ts[0], s, f), f)
  }

  lemma {:induction false} ProducedAgrees<V>(t: Task, s: map<Key, V>, s': map<Key, V>, f: Funcs<V>)
    requires Runnable(t, f) && Reads(t) <= s.Keys && Reads(t) <= s'.Keys
    requires forall k :: k in Reads(t) ==> s[k] == s'[k]
    ensures Produced(t, s, f) == Produced(t, s', f)
  {
    match t
    case SummaryMerge(_, _, inputs) =>
      assert Gather(s, inputs) == Gather(s', inputs);
    case FullMerge(inputs, _) =>
      assert Gather(s, inputs) == Gather(s', inputs);
    case _ =>
  }

  /** In the sequential result every output is what its task computes from that result. */
  lemma {:induction false} SequentialIsFixpoint<V>(ts: seq<Task>, s: map<Key, V>, f: Funcs<V>, i: nat)
    requires Flows(ts, s.Keys) && AllRunnable(ts, f) && i < |ts|
    ensures var r := Sequential(ts, s, f);
            && Reads(ts[i]) <= r.Keys
            && Writes(ts[i]) <= r.Keys
            && forall k :: k in Writes(ts[i]) ==> r[k] == Produced(ts[i], r, f)[k]
    decreases |ts|
  {
    var s1 := s + Produced(ts[0], s, f);
    var r := Sequential(ts, s, f);
    assert r == Sequential(ts[1..], s1, f);
    if i == 0 {
      ProducedAgrees(ts[0], s, r, f);
    } else {
      SequentialIsFixpoint(ts[1..], s1, f, i - 1);
    }
  }

  // ---------------------------------------------------------------------------
  // Runs
  // ---------------------------------------------------------------------------

  datatype Job<!V> = Job(tasks: seq<Task>, cleanup: Option<seq<Key>>, output: Key, start: map<Key, V>, f: Funcs<V>)

  datatype World<V> = World(store: map<Key, V>, done: set<nat>, cleaned: bool)

  datatype Event = RunTask(i: nat) | RunCleanup

  ghost predicate Enabled<V>(job: Job<V>, w: World<V>, e: Event) {
    match e
    case RunTask(i) =>
      && i < |job.tasks| && i !in w.done
      && Runnable(job.tasks[i], job.f) && Reads(job.tasks[i]) <= w.store.Keys
    case RunCleanup => job.cleanup.Some? && !w.cleaned && job.output in w.store
  }

  ghost function Apply<V>(job: Job<V>, w: World<V>, e: Event): World<V>
    requires Enabled(job, w, e)
  {
    match e
    case RunTask(i) => w.(store := w.store + Produced(job.tasks[i], w.store, job.f), done := w.done + {i})
    case RunCleanup => w.(store := w.store - KeySet(job.cleanup.value), cleaned := true)
  }

  ghost predicate IsRun<V>(job: Job<V>, w: World<V>, es: seq<Event>)
    decreases |es|
  {
    es == [] || (Enabled(job, w, es[0]) && IsRun(job, Apply(job, w, es[0]), es[1..]))
  }

  ghost function After<V>(job: Job<V>, w: World<V>, es: seq<Event>): World<V>
    requires IsRun(job, w, es)
    decreases |es|
  {
    if es == [] then w else After(job, Apply(job, w, es[0]), es[1..])
  }

  ghost function Begin<V>(job: Job<V>): World<V> {
    World(job.start, {}, false)
  }

  /** A job whose tasks form one flow into the output and whose cleanup spares start and output. */
  ghost predicate Sound<V>(job: Job<V>) {
    && job.tasks != []
    && Flows(job.tasks, job.start.Keys) && AllRunnable(job.tasks, job.f)
    && Unread(job.tasks, {}) == {job.output}
    && job.output in Writes(job.tasks[|job.tasks| - 1])
    && (job.cleanup.Some? ==> KeySet(job.cleanup.value) !! (job.start.Keys + {job.output}))
  }

  ghost predicate WrittenBy<V>(job: Job<V>, done: set<nat>, k: Key) {
    exists i :: i in done && i < |job.tasks| && k in Writes(job.tasks[i])
  }

  ghost predicate Removed<V>(job: Job<V>, w: World<V>, k: Key) {
    w.cleaned && job.cleanup.Some? && k in job.cleanup.value
  }

  /** The store holds exactly the start objects and the outputs of finished tasks. */
  ghost predicate StoreKeys<V>(job: Job<V>, w: World<V>) {
    && (forall i :: i in w.done ==> i < |job.tasks|)
    && (forall k :: k in w.store <==> (k in job.start || WrittenBy(job, w.done, k)) && !Removed(job, w, k))
    && (w.cleaned ==> forall i: nat :: i < |job.tasks| ==> i in w.done)
  }

  /** Values do not depend on the order of execution. */
  ghost predicate StoreValues<V>(job: Job<V>, w: World<V>)
    requires Sound(job)
  {
    var r := Sequential(job.tasks, job.start, job.f);
    forall k :: k in w.store ==> k in r && w.store[k] == r[k]
  }

  /** A finished task found its inputs written by finished tasks. */
  ghost predicate Closed<V>(job: Job<V>, w: World<V>) {
    forall j, k :: j in w.done && j < |job.tasks| && k in Reads(job.tasks[j]) ==>
      k in job.start || WrittenBy(job, w.done, k)
  }

  ghost predicate Inv<V>(job: Job<V>, w: World<V>)
    requires Sound(job)
  {
    StoreKeys(job, w) && StoreValues(job, w) && Closed(job, w)
  }

  lemma {:induction false} SoleWriter<V>(job: Job<V>, i: nat, j: nat, k: Key)
    requires Sound(job) && i < |job.tasks| && j < |job.tasks|
    requires k in Writes(job.tasks[i]) && k in Writes(job.tasks[j])
    ensures i == j && k !in job.start
  {
    WritesAreNew(job.tasks, job.start.Keys, i);
    if i < j {
      OneWriter(job.tasks, job.start.Keys, i, j);
    } else if j < i {
      OneWriter(job.tasks, job.start.Keys, j, i);
    }
  }

  /** Once the last task has run, every task has: results only travel towards the output. */
  lemma {:induction false} AllDoneFrom<V>(job: Job<V>, w: World<V>, from: nat)
    requires Sound(job) && Inv(job, w) && from <= |job.tasks|
    requires |job.tasks| - 1 in w.done
    ensures forall i :: from <= i < |job.tasks| ==> i in w.done
    decreases |job.tasks| - from
  {
    var n := |job.tasks|;
    if from < n {
      AllDoneFrom(job, w, from + 1);
      if from < n - 1 {
        var k := AnyWrite(job.tasks[from], job.f);
        if k == job.output {
          SoleWriter(job, from, n - 1, k);
        }
        var j := Consumer(job.tasks, {}, from, k);
        assert j in w.done;
        SoleWriter(job, from, from, k);
        var i :| i in w.done && i < n && k in Writes(job.tasks[i]);
        SoleWriter(job, from, i, k);
      }
    }
  }

  lemma {:induction false} AnyWrite<V>(t: Task, f: Funcs<V>) returns (k: Key)
    requires Runnable(t, f)
    ensures k in Writes(t)
  {
    match t
    case Partition(n) => k := Part(0);
    case Process(i, _) => k := Proc(i);
    case SummaryMerge(stage, id, _) => k := MergeOut(stage, id);
    case FullMerge(_, output) => k := output;
    case Finalize(output, _) => k := output;
    case CopyOut(_, output) => k := output;
  }

  lemma {:induction false} OutputMeansDone<V>(job: Job<V>, w: World<V>)
    requires Sound(job) && Inv(job, w) && job.output in w.store
    ensures forall i :: 0 <= i < |job.tasks| ==> i in w.done
  {
    var n := |job.tasks|;
    SoleWriter(job, n - 1, n - 1, job.output);
    var i :| i in w.done && i < n && job.output in Writes(job.tasks[i]);
    SoleWriter(job, i, n - 1, job.output);
    AllDoneFrom(job, w, 0);
  }

  lemma {:induction false} InvBegin<V>(job: Job<V>)
    requires Sound(job)
    ensures Inv(job, Begin(job))
  {
  }

  lemma {:induction false} InvCleanup<V>(job: Job<V>, w: World<V>)
    requires Sound(job) && Inv(job, w) && Enabled(job, w, RunCleanup)
    ensures Inv(job, Apply(job, w, RunCleanup))
  {
    OutputMeansDone(job, w);
    var w' := Apply(job, w, RunCleanup);
    assert forall k :: k in w'.store <==> k in w.store && k !in job.cleanup.value;
  }

  lemma {:induction false} WrittenAfter<V>(job: Job<V>, w: World<V>, i: nat, k: Key)
    requires i < |job.tasks|
    ensures WrittenBy(job, w.done + {i}, k) <==> WrittenBy(job, w.done, k) || k in Writes(job.tasks[i])
  {
  }

  lemma {:induction false} TaskKeepsKeys<V>(job: Job<V>, w: World<V>, i: nat)
    requires Sound(job) && Inv(job, w) && Enabled(job, w, RunTask(i))
    ensures StoreKeys(job, Apply(job, w, RunTask(i))) && Closed(job, Apply(job, w, RunTask(i)))
  {
  }

  lemma {:induction false} TaskKeepsValues<V>(job: Job<V>, w: World<V>, i: nat)
    requires Sound(job) && Inv(job, w) && Enabled(job, w, RunTask(i))
    ensures StoreValues(job, Apply(job, w, RunTask(i)))
  {
    hide StoreKeys, Closed, Runnable, Produced, Writes, Reads, WrittenBy;
    var r := Sequential(job.tasks, job.start, job.f);
    SequentialIsFixpoint(job.tasks, job.start, job.f, i);
    ProducedAgrees(job.tasks[i], w.store, r, job.f);
  }

  lemma {:induction false} InvRun<V>(job: Job<V>, w: World<V>, es: seq<Event>)
    requires Sound(job) && Inv(job, w) && IsRun(job, w, es)
    ensures Inv(job, After(job, w, es))
    decreases |es|
  {
    hide StoreKeys, StoreValues, Closed, Sound, Enabled, Apply;
    if es != [] {
      match es[0] {
        case RunTask(i) =>
          TaskKeepsKeys(job, w, i);
          TaskKeepsValues(job, w, i);
        case RunCleanup =>
          InvCleanup(job, w);
      }
      InvRun(job, Apply(job, w, es[0]), es[1..]);
    }
  }

  /** A task that has not run yet misses an input that a finished task already wrote. */
  ghost predicate LostInput<V>(job: Job<V>, w: World<V>) {
    exists i, k :: 0 <= i < |job.tasks| && i !in w.done && k in Reads(job.tasks[i])
                   && WrittenBy(job, w.done, k) && k !in w.store
  }

  /** What every dependency-respecting run keeps, whatever the order. */
  lemma {:induction false} RunIsSafe<V>(job: Job<V>, es: seq<Event>)
    requires Sound(job) && IsRun(job, Begin(job), es)
    ensures var w := After(job, Begin(job), es);
            && !LostInput(job, w)
            && (forall k :: k in job.start ==> k in w.store && w.store[k] == job.start[k])
            && (job.output in w.store <==> |job.tasks| - 1 in w.done)
            && (job.output in w.store ==>
                  var r := Sequential(job.tasks, job.start, job.f);
                  job.output in r && w.store[job.output] == r[job.output])
  {
    var w := After(job, Begin(job), es);
    InvBegin(job);
    InvRun(job, Begin(job), es);
    if job.output in w.store {
      OutputMeansDone(job, w);
    }
  }

  /** No run gets stuck: until everything ran, the first unfinished task can run. */
  lemma {:induction false} RunMakesProgress<V>(job: Job<V>, es: seq<Event>, i: nat)
    requires Sound(job) && IsRun(job, Begin(job), es)
    requires i < |job.tasks| && i !in After(job, Begin(job), es).done
    requires forall j: nat :: j < i ==> j in After(job, Begin(job), es).done
    ensures Enabled(job, After(job, Begin(job), es), RunTask(i))
  {
    var w := After(job, Begin(job), es);
    InvBegin(job);
    InvRun(job, Begin(job), es);
    forall k | k in Reads(job.tasks[i]) ensures k in w.store {
      ReadsAvailable(job.tasks, job.start.Keys, i);
      AvailIs(job.tasks[..i], job.start.Keys);
      if k !in job.start {
        var j := WriterOf(job.tasks[..i], k);
        assert job.tasks[..i][j] == job.tasks[j];
        assert WrittenBy(job, w.done, k);
      }
    }
  }

  // ---------------------------------------------------------------------------
  // The tree means the fold
  // ---------------------------------------------------------------------------

  ghost predicate Computes<V>(r: map<Key, V>, ts: seq<Task>, f: Funcs<V>) {
    forall i :: 0 <= i < |ts| ==> ComputesTask(r, ts[i], f)
  }

  ghost predicate ComputesTask<V>(r: map<Key, V>, t: Task, f: Funcs<V>) {
    && Runnable(t, f) && Reads(t) <= r.Keys && Writes(t) <= r.Keys
    && forall k :: k in Writes(t) ==> r[k] == Produced(t, r, f)[k]
  }

  lemma {:induction false} BatchesOfGather<V>(r: map<Key, V>, keys: seq<Key>, fan: nat, i: nat)
    requires KeySet(keys) <= r.Keys && fan > 0
    requires i < |Batches(keys, fan)|
    ensures |Batches(Gather(r, keys), fan)| == |Batches(keys, fan)|
    ensures KeySet(Batches(keys, fan)[i]) <= r.Keys
    ensures Batches(Gather(r, keys), fan)[i] == Gather(r, Batches(keys, fan)[i])
    decreases |keys|
  {
    if |keys| > fan {
      var head, tail := keys[..fan], keys[fan..];
      assert KeySet(head) <= KeySet(keys) && KeySet(tail) <= KeySet(keys);
      assert Gather(r, keys)[..fan] == Gather(r, head);
      assert Gather(r, keys)[fan..] == Gather(r, tail);
      BatchesOfGather(r, tail, fan, if i > 0 then i - 1 else 0);
    }
  }

  lemma {:induction false} StageMeansBatches<V>(r: map<Key, V>, keys: seq<Key>, fan: nat, stage: nat, f: Funcs<V>)
    requires keys != [] && fan > 0 && KeySet(keys) <= r.Keys
    requires Computes(r, StageTasks(stage, Batches(keys, fan)), f)
    ensures var outs := StageOuts(stage, |Batches(keys, fan)|);
            && KeySet(outs) <= r.Keys
            && Gather(r, outs) == MapFold(f.merge, Batches(Gather(r, keys), fan))
  {
    var bs := Batches(keys, fan);
    var ts, outs := StageTasks(stage, bs), StageOuts(stage, |bs|);
    forall i | 0 <= i < |bs|
      ensures outs[i] in r && |Batches(Gather(r, keys), fan)| == |bs|
      ensures r[outs[i]] == Fold(f.merge, Batches(Gather(r, keys), fan)[i])
    {
      BatchesOfGather(r, keys, fan, i);
      assert ComputesTask(r, ts[i], f);
      assert outs[i] in Writes(ts[i]);
    }
    assert |bs| > 0;
    BatchesOfGather(r, keys, fan, 0);
  }

  /** The staged reduction leaves the left fold of its inputs, in order, at the root. */
  lemma {:induction false} TreeMeansFold<V(!new)>(r: map<Key, V>, keys: seq<Key>, fan: nat, stage: nat, f: Funcs<V>)
    requires keys != [] && (|keys| > 1 ==> fan > 1) && KeySet(keys) <= r.Keys
    requires Computes(r, TreeTasks(keys, fan, stage), f) && Associative(f.merge)
    ensures TreeRoot(keys, fan, stage) in r
    ensures r[TreeRoot(keys, fan, stage)] == Fold(f.merge, Gather(r, keys))
    decreases |keys|
  {
    hide Associative, ComputesTask, Fold;
    if |keys| == 1 {
      assert keys[0] in KeySet(keys);
      FoldOfOne(f.merge, Gather(r, keys));
    } else {
      var bs := Batches(keys, fan);
      var ts, outs := StageTasks(stage, bs), StageOuts(stage, |bs|);
      var rest := TreeTasks(outs, fan, stage + 1);
      ComputesSplit(r, ts, rest, f);
      StageMeansBatches(r, keys, fan, stage, f);
      TreeMeansFold(r, outs, fan, stage + 1, f);
      FoldOfBatches(f.merge, Gather(r, keys), fan);
    }
  }

  lemma {:induction false} FoldOfOne<V>(f: (V, V) -> V, xs: seq<V>)
    requires |xs| == 1
    ensures Fold(f, xs) == xs[0]
  {
  }

  lemma {:induction false} ComputesSplit<V>(r: map<Key, V>, a: seq<Task>, b: seq<Task>, f: Funcs<V>)
    requires Computes(r, a + b, f)
    ensures Computes(r, a, f) && Computes(r, b, f)
  {
    hide ComputesTask;
    assert forall i :: 0 <= i < |a| ==> (a + b)[i] == a[i];
    assert forall i :: 0 <= i < |b| ==> (a + b)[|a| + i] == b[i];
  }

  // ---------------------------------------------------------------------------
  // What a job delivers
  // ---------------------------------------------------------------------------

  ghost function JobOf<V>(c: Setup, start: map<Key, V>, f: Funcs<V>): Job<V>
    requires c.N() > 0
  {
    Job(c.Tasks(), if c.keepIntermediate then None else Some(c.Intermediate()), c.Output(), start, f)
  }

  /** The world the job is submitted to; the worker's partitions are those of the dry run. */
  ghost predicate Submitted<V>(c: Setup, start: map<Key, V>, f: Funcs<V>) {
    Starts(c, start.Keys) && (c.preset.None? ==> |f.parts| == c.partitions)
  }

  ghost function Inputs<V>(c: Setup, start: map<Key, V>, f: Funcs<V>): (vs: seq<V>)
    requires Submitted(c, start, f)
    ensures |vs| == c.N()
  {
    if c.preset.Some? then Gather(start, c.Parts()) else f.parts
  }

  /** Process every partition, fold the results from left to right, finalize. */
  ghost function Reference<V>(c: Setup, start: map<Key, V>, f: Funcs<V>): V
    requires Submitted(c, start, f)
  {
    var ins := Inputs(c, start, f);
    var merged := Fold(f.merge, seq(|ins|, i requires 0 <= i < |ins| => f.process(ins[i])));
    if c.finalizer then f.finalize(merged) else merged
  }

  lemma {:induction false} TreeRunnable<V>(keys: seq<Key>, fan: nat, stage: nat, f: Funcs<V>)
    requires |keys| > 1 ==> fan > 1
    ensures AllRunnable(TreeTasks(keys, fan, stage), f)
    decreases |keys|
  {
    if |keys| > 1 {
      TreeRunnable(StageOuts(stage, |Batches(keys, fan)|), fan, stage + 1, f);
    }
  }

  lemma {:induction false} PlanRunnable<V>(c: Setup, start: map<Key, V>, f: Funcs<V>)
    requires Submitted(c, start, f)
    ensures AllRunnable(c.Tasks(), f)
  {
    var n := c.N();
    assert AllRunnable(c.PartitionTasks(), f);
    assert AllRunnable(ProcessTasks(c.Parts()), f);
    assert AllRunnable(c.MergeTasks(), f) by {
      if c.summary {
        TreeRunnable(ProcKeys(n), c.FanIn(), 0, f);
      } else {
        assert ProcKeys(n)[0] == Proc(0);
      }
    }
  }

  lemma {:induction false} CleanupSpares(c: Setup, initial: set<Key>)
    requires Starts(c, initial)
    ensures KeySet(c.Intermediate()) !! (initial + {c.Output()})
  {
    var procs := ProcKeys(c.N());
    if c.summary {
      TreeRootIsOwn(procs, c.FanIn(), 0);
    }
    assert forall k :: k in c.Intermediate() ==> !k.User?;
  }

  lemma {:induction false} PlanIsSound<V>(c: Setup, start: map<Key, V>, f: Funcs<V>)
    requires Submitted(c, start, f) && c.Output() !in start
    ensures Sound(JobOf(c, start, f))
  {
    PlanFlows(c, start.Keys);
    PlanRunnable(c, start, f);
    CleanupSpares(c, start.Keys);
    var ts := c.Tasks();
    assert ts[|ts| - 1] == c.LastTask();
  }

  lemma {:induction false} ProcessedValues<V>(c: Setup, start: map<Key, V>, f: Funcs<V>, r: map<Key, V>)
    requires Submitted(c, start, f)
    requires Computes(r, c.PartitionTasks(), f) && Computes(r, ProcessTasks(c.Parts()), f)
    requires forall k :: k in start ==> k in r && r[k] == start[k]
    ensures KeySet(ProcKeys(c.N())) <= r.Keys
    ensures forall i :: 0 <= i < c.N() ==>
              Gather(r, ProcKeys(c.N()))[i] == f.process(Inputs(c, start, f)[i])
  {
    var ts, procs, parts := ProcessTasks(c.Parts()), ProcKeys(c.N()), c.Parts();
    forall i | 0 <= i < c.N() ensures procs[i] in r && r[procs[i]] == f.process(Inputs(c, start, f)[i]) {
      assert ComputesTask(r, ts[i], f);
      assert Proc(i) in Writes(ts[i]);
      if c.preset.None? {
        var p := c.PartitionTasks();
        assert ComputesTask(r, p[0], f);
        assert Part(i) in Writes(p[0]);
      } else {
        assert parts[i] in KeySet(parts);
      }
    }
  }

  lemma {:induction false} MergedValue<V(!new)>(c: Setup, f: Funcs<V>, r: map<Key, V>)
    requires c.N() > 0 && KeySet(ProcKeys(c.N())) <= r.Keys
    requires Computes(r, c.MergeTasks(), f)
    requires c.summary ==> Associative(f.merge)
    ensures c.MergeRoot() in r && r[c.MergeRoot()] == Fold(f.merge, Gather(r, ProcKeys(c.N())))
  {
    var procs := ProcKeys(c.N());
    if c.summary {
      TreeMeansFold(r, procs, c.FanIn(), 0, f);
    } else {
      assert ComputesTask(r, c.MergeTasks()[0], f);
      assert Merged in Writes(c.MergeTasks()[0]);
    }
  }

  lemma {:induction false} SequentialComputes<V>(ts: seq<Task>, start: map<Key, V>, f: Funcs<V>)
    requires Flows(ts, start.Keys) && AllRunnable(ts, f)
    ensures Computes(Sequential(ts, start, f), ts, f)
  {
    hide Flows, Produced;
    var r := Sequential(ts, start, f);
    forall i | 0 <= i < |ts| ensures ComputesTask(r, ts[i], f) {
      SequentialIsFixpoint(ts, start, f, i);
    }
  }

  lemma {:induction false} ComputedOutput<V(!new)>(c: Setup, start: map<Key, V>, f: Funcs<V>, r: map<Key, V>)
    requires Submitted(c, start, f) && Computes(r, c.Tasks(), f)
    requires forall k :: k in start ==> k in r && r[k] == start[k]
    requires c.summary ==> Associative(f.merge)
    ensures c.Output() in r && r[c.Output()] == Reference(c, start, f)
  {
    hide Associative, Starts, Produced, Runnable, Reads, Writes, ComputesTask, Fold;
    AtLeastOne(c, start.Keys);
    var a, b, m, z := c.PartitionTasks(), ProcessTasks(c.Parts()), c.MergeTasks(), [c.LastTask()];
    ComputesSplit(r, a + b + m, z, f);
    ComputesSplit(r, a + b, m, f);
    ComputesSplit(r, a, b, f);
    ProcessedValues(c, start, f, r);
    MergedValue(c, f, r);
    LastValue(c, f, r);
    var ins := Inputs(c, start, f);
    assert Gather(r, ProcKeys(c.N())) == seq(|ins|, i requires 0 <= i < |ins| => f.process(ins[i]));
  }

  lemma {:induction false} AtLeastOne(c: Setup, initial: set<Key>)
    requires Starts(c, initial)
    ensures c.N() > 0
  {
  }

  lemma {:induction false} LastValue<V>(c: Setup, f: Funcs<V>, r: map<Key, V>)
    requires c.N() > 0 && c.MergeRoot() in r && Computes(r, [c.LastTask()], f)
    ensures c.Output() in r
    ensures r[c.Output()] == if c.finalizer then f.finalize(r[c.MergeRoot()]) else r[c.MergeRoot()]
  {
    var t := [c.LastTask()][0];
    assert ComputesTask(r, t, f);
    assert c.Output() in Writes(t);
  }

  lemma {:induction false} SequentialMeansReference<V(!new)>(c: Setup, start: map<Key, V>, f: Funcs<V>)
    requires Submitted(c, start, f) && c.Output() !in start
    requires c.summary ==> Associative(f.merge)
    ensures Flows(c.Tasks(), start.Keys) && AllRunnable(c.Tasks(), f)
    ensures var r := Sequential(c.Tasks(), start, f);
            c.Output() in r && r[c.Output()] == Reference(c, start, f)
  {
    hide Flows, Starts, Computes, Reference, Associative, AllRunnable, Unread, KeySet, Writes, Setup.Tasks,
      Setup.Intermediate;
    AtLeastOne(c, start.Keys);
    PlanIsSound(c, start, f);
    SequentialComputes(c.Tasks(), start, f);
    ComputedOutput(c, start, f, Sequential(c.Tasks(), start, f));
  }

  /** In every run the output, once there, is the reference result, and stays. */
  lemma {:induction false} JobDeliversFold<V(!new)>(c: Setup, start: map<Key, V>, f: Funcs<V>, es: seq<Event>)
    requires Submitted(c, start, f) && c.Output() !in start
    requires c.summary ==> Associative(f.merge)
    requires IsRun(JobOf(c, start, f), Begin(JobOf(c, start, f)), es)
    ensures var w := After(JobOf(c, start, f), Begin(JobOf(c, start, f)), es);
            && (c.Output() in w.store <==> |c.Tasks()| - 1 in w.done)
            && (c.Output() in w.store ==> w.store[c.Output()] == Reference(c, start, f))
  {
    hide Flows, Starts, Reference, IsRun, After, Associative, AllRunnable, LostInput, Unread, KeySet, Writes,
      Sequential, Sound, Setup.Tasks, Setup.Intermediate;
    AtLeastOne(c, start.Keys);
    PlanIsSound(c, start, f);
    SequentialMeansReference(c, start, f);
    RunIsSafe(JobOf(c, start, f), es);
  }

  // ---------------------------------------------------------------------------
  // Exactly when cleanup is safe
  // ---------------------------------------------------------------------------

  lemma {:induction false} NoCleanupKeepsAll<V>(job: Job<V>, w: World<V>, es: seq<Event>)
    requires job.cleanup.None? && IsRun(job, w, es)
    requires forall k :: WrittenBy(job, w.done, k) ==> k in w.store
    ensures !LostInput(job, After(job, w, es))
    decreases |es|
  {
    hide LostInput, WrittenBy, Produced, Runnable, Writes, Reads;
    if es == [] {
      NothingLost(job, w);
    } else {
      var i, w' := es[0].i, Apply(job, w, es[0]);
      forall k | WrittenBy(job, w'.done, k) ensures k in w'.store {
        WrittenAfter(job, w, i, k);
      }
      NoCleanupKeepsAll(job, w', es[1..]);
    }
  }

  lemma {:induction false} NothingLost<V>(job: Job<V>, w: World<V>)
    requires forall k :: WrittenBy(job, w.done, k) ==> k in w.store
    ensures !LostInput(job, w)
  {
  }

  /** The first partition, its processing, and then the cleanup of a job whose output name was taken. */
  ghost function HastyRun(c: Setup): seq<Event> {
    if c.preset.Some? then [RunTask(0), RunCleanup] else [RunTask(0), RunTask(1), RunCleanup]
  }

  lemma {:induction false} ReaderOfFirst(c: Setup, initial: set<Key>, p: nat) returns (j: nat)
    requires Starts(c, initial) && p == |c.PartitionTasks()|
    ensures p < j < |c.Tasks()| && Proc(0) in Reads(c.Tasks()[j])
  {
    var a, b, m := c.PartitionTasks(), ProcessTasks(c.Parts()), c.MergeTasks();
    var ts := c.Tasks();
    FrontFlows(c, initial);
    MergeFlows(c, Avail(a + b, initial));
    FlowsConcat(a + b, m, initial, {});
    assert (a + b + m)[p] == b[0] && ts[..|ts| - 1] == a + b + m;
    if c.MergeRoot() == Proc(0) {
      j := |ts| - 1;
    } else {
      j := Consumer(a + b + m, {}, p, Proc(0));
    }
  }

  lemma {:induction false} FrontOf(c: Setup, initial: set<Key>)
    requires Starts(c, initial)
    ensures c.preset.None? ==> c.Tasks()[0] == Partition(c.partitions)
    ensures var p := |c.PartitionTasks()|;
            p < |c.Tasks()| && c.Tasks()[p] == Process(0, c.Parts()[0])
    ensures Proc(0) in c.Intermediate()
    ensures c.preset.None? ==> c.Parts()[0] == Part(0) && c.partitions > 0
    ensures c.preset.Some? ==> c.Parts()[0] in initial
  {
  }

  /** Processing one partition and then cleaning up. */
  lemma {:induction false} ProcessThenCleanup<V>(job: Job<V>, w: World<V>, p: nat, input: Key)
    requires p < |job.tasks| && p !in w.done && job.tasks[p] == Process(0, input) && input in w.store
    requires job.cleanup.Some? && Proc(0) in job.cleanup.value && !w.cleaned && job.output in w.store
    ensures IsRun(job, w, [RunTask(p), RunCleanup])
    ensures var w' := After(job, w, [RunTask(p), RunCleanup]);
            w'.done == w.done + {p} && Proc(0) !in w'.store
  {
    var es := [RunTask(p), RunCleanup];
    var w1 := Apply(job, w, RunTask(p));
    assert es[1..] == [RunCleanup] && es[1..][1..] == [];
    assert IsRun(job, w1, [RunCleanup]);
    assert Proc(0) in KeySet(job.cleanup.value);
  }

  /** Partitioning, processing the first partition, cleaning up. */
  lemma {:induction false} PartitionThenCleanup<V>(job: Job<V>, n: nat)
    requires |job.tasks| > 1 && job.tasks[0] == Partition(n) && job.tasks[1] == Process(0, Part(0))
    requires 0 < n == |job.f.parts| && job.output in job.start
    requires job.cleanup.Some? && Proc(0) in job.cleanup.value
    ensures var es := [RunTask(0), RunTask(1), RunCleanup];
            && IsRun(job, Begin(job), es)
            && After(job, Begin(job), es).done == {0, 1} && Proc(0) !in After(job, Begin(job), es).store
  {
  }

  lemma {:induction false} HastyFacts<V>(c: Setup, start: map<Key, V>, f: Funcs<V>)
    requires Submitted(c, start, f) && !c.keepIntermediate
    ensures var job := JobOf(c, start, f);
            && job.tasks == c.Tasks() && job.cleanup == Some(c.Intermediate()) && job.output == c.Output()
            && job.start == start && job.f == f
            && Begin(job) == World(start, {}, false) && (c.preset.None? ==> |f.parts| == c.partitions)
    ensures c.preset.None? ==> HastyRun(c) == [RunTask(0), RunTask(1), RunCleanup] && |c.PartitionTasks()| == 1
    ensures c.preset.Some? ==> HastyRun(c) == [RunTask(0), RunCleanup] && |c.PartitionTasks()| == 0
  {
  }

  lemma {:induction false} SubmittedMeans<V>(c: Setup, start: map<Key, V>, f: Funcs<V>)
    requires Submitted(c, start, f)
    ensures Starts(c, start.Keys) && c.N() > 0
    ensures |c.PartitionTasks()| == if c.preset.None? then 1 else 0
  {
  }

  lemma {:induction false} HastyPartition<V>(c: Setup, start: map<Key, V>, f: Funcs<V>)
    requires Submitted(c, start, f) && Starts(c, start.Keys) && c.N() > 0
    requires c.Output() in start && !c.keepIntermediate && c.preset.None?
    ensures var job := JobOf(c, start, f);
            && IsRun(job, Begin(job), HastyRun(c))
            && var w := After(job, Begin(job), HastyRun(c));
            w.done == {0, 1} && Proc(0) !in w.store
  {
    hide *;
    FrontOf(c, start.Keys);
    HastyFacts(c, start, f);
    PartitionThenCleanup(JobOf(c, start, f), c.partitions);
  }

  lemma {:induction false} HastyPreset<V>(c: Setup, start: map<Key, V>, f: Funcs<V>)
    requires Submitted(c, start, f) && Starts(c, start.Keys) && c.N() > 0
    requires c.Output() in start && !c.keepIntermediate && c.preset.Some?
    ensures var job := JobOf(c, start, f);
            && IsRun(job, Begin(job), HastyRun(c))
            && var w := After(job, Begin(job), HastyRun(c));
            w.done == {0} && Proc(0) !in w.store
  {
    hide *;
    FrontOf(c, start.Keys);
    HastyFacts(c, start, f);
    var job := JobOf(c, start, f);
    ProcessThenCleanup(job, Begin(job), 0, c.Parts()[0]);
  }

  lemma {:induction false} HastyRunSteps<V>(c: Setup, start: map<Key, V>, f: Funcs<V>)
    requires Submitted(c, start, f) && c.Output() in start && !c.keepIntermediate
    ensures var job := JobOf(c, start, f);
            && IsRun(job, Begin(job), HastyRun(c))
            && var w := After(job, Begin(job), HastyRun(c));
            && (forall i :: i in w.done <==> 0 <= i <= |c.PartitionTasks()|)
            && Proc(0) !in w.store
  {
    hide *;
    SubmittedMeans(c, start, f);
    if c.preset.None? {
      HastyPartition(c, start, f);
    } else {
      HastyPreset(c, start, f);
    }
  }

  lemma {:induction false} TakenNameLosesInput<V>(c: Setup, start: map<Key, V>, f: Funcs<V>)
    requires Submitted(c, start, f) && c.Output() in start && !c.keepIntermediate
    ensures var job := JobOf(c, start, f);
            && IsRun(job, Begin(job), HastyRun(c))
            && LostInput(job, After(job, Begin(job), HastyRun(c)))
  {
    var job, p := JobOf(c, start, f), |c.PartitionTasks()|;
    HastyRunSteps(c, start, f);
    var j := ReaderOfFirst(c, start.Keys, p);
    var w := After(job, Begin(job), HastyRun(c));
    assert c.Tasks()[p] == Process(0, c.Parts()[0]);
    assert p in w.done && Proc(0) in Writes(c.Tasks()[p]);
    assert WrittenBy(job, w.done, Proc(0));
    assert j !in w.done;
  }

  ghost predicate NeverLosesInput<V>(job: Job<V>) {
    forall es :: IsRun(job, Begin(job), es) ==> !LostInput(job, After(job, Begin(job), es))
  }

  /** Cleanup never takes an input away, in any run, exactly when it is off or the output name is fresh. */
  lemma {:induction false} CleanupSafeIff<V>(c: Setup, start: map<Key, V>, f: Funcs<V>)
    requires Submitted(c, start, f)
    ensures NeverLosesInput(JobOf(c, start, f)) <==> (c.keepIntermediate || c.Output() !in start)
  {
    var job := JobOf(c, start, f);
    hide LostInput, Starts, IsRun, Setup.Tasks, Setup.Intermediate;
    if c.Output() !in start {
      PlanIsSound(c, start, f);
      forall es | IsRun(job, Begin(job), es) ensures !LostInput(job, After(job, Begin(job), es)) {
        RunIsSafe(job, es);
      }
    } else if c.keepIntermediate {
      forall es | IsRun(job, Begin(job), es) ensures !LostInput(job, After(job, Begin(job), es)) {
        NoCleanupKeepsAll(job, Begin(job), es);
      }
    } else {
      TakenNameLosesInput(c, start, f);
      assert LostInput(job, After(job, Begin(job), HastyRun(c)));
    }
  }

  // ---------------------------------------------------------------------------
  // What cleanup leaves behind
  // ---------------------------------------------------------------------------

  lemma {:induction false} AllWritesConcat(a: seq<Task>, b: seq<Task>)
    ensures AllWrites(a + b) == AllWrites(a) + AllWrites(b)
    decreases |a|
  {
    if a == [] {
      assert a + b == b;
    } else {
      assert (a + b)[1..] == a[1..] + b;
      AllWritesConcat(a[1..], b);
    }
  }

  lemma {:induction false} TreeWrites(keys: seq<Key>, fan: nat, stage: nat)
    requires |keys| > 1 ==> fan > 1
    ensures forall k :: k in AllWrites(TreeTasks(keys, fan, stage)) ==> k.MergeOut? && k.stage >= stage
    ensures |keys| > 1 ==> TreeRoot(keys, fan, stage).MergeOut? && TreeRoot(keys, fan, stage).stage >= stage
    decreases |keys|
  {
    if |keys| > 1 {
      var bs := Batches(keys, fan);
      var outs := StageOuts(stage, |bs|);
      StageReadsAndWrites(keys, fan, stage);
      TreeWrites(outs, fan, stage + 1);
      AllWritesConcat(StageTasks(stage, bs), TreeTasks(outs, fan, stage + 1));
    }
  }

  /** A tree writes nothing but its root exactly when one batch takes all its keys. */
  lemma {:induction false} OneStageIff(keys: seq<Key>, fan: nat, stage: nat)
    requires keys != [] && fan > 0 && (|keys| > 1 ==> fan > 1)
    ensures AllWrites(TreeTasks(keys, fan, stage)) <= {TreeRoot(keys, fan, stage)} <==> |keys| <= fan
  {
    if |keys| > 1 {
      var bs := Batches(keys, fan);
      var outs := StageOuts(stage, |bs|);
      StageReadsAndWrites(keys, fan, stage);
      TreeWrites(outs, fan, stage + 1);
      AllWritesConcat(StageTasks(stage, bs), TreeTasks(outs, fan, stage + 1));
      if |keys| <= fan {
        assert outs == [MergeOut(stage, 0)];
        assert TreeTasks(outs, fan, stage + 1) == [];
        assert AllWrites(TreeTasks(keys, fan, stage)) == KeySet(outs);
      } else {
        assert |bs| > 1 && outs[0] == MergeOut(stage, 0);
        assert MergeOut(stage, 0) in KeySet(outs);
        assert TreeRoot(keys, fan, stage).stage > stage;
      }
    }
  }

  /** Results of the merge phase other than its root. */
  ghost function InnerResults(c: Setup): set<Key>
    requires c.N() > 0
  {
    AllWrites(c.MergeTasks()) - {c.MergeRoot()}
  }

  lemma {:induction false} MergeWrites(c: Setup)
    requires c.N() > 0
    ensures forall k :: k in AllWrites(c.MergeTasks()) ==> k.MergeOut? || k.Merged?
    ensures InnerResults(c) == {} <==> !c.summary || c.N() <= 8
  {
    if c.summary {
      TreeWrites(ProcKeys(c.N()), c.FanIn(), 0);
      OneStageIff(ProcKeys(c.N()), c.FanIn(), 0);
    } else {
      assert c.MergeTasks()[1..] == [];
      assert AllWrites(c.MergeTasks()) == {Merged};
    }
  }

  lemma {:induction false} PlanWrites(c: Setup, initial: set<Key>)
    requires Starts(c, initial)
    ensures AllWrites(c.Tasks()) ==
            (if c.preset.Some? then {} else KeySet(c.Parts())) + KeySet(ProcKeys(c.N())) + AllWrites(c.MergeTasks())
            + {c.Output()}
  {
    AtLeastOne(c, initial);
    LastWrites(c);
    hide Starts, AllWrites, KeySet, Setup.N, Setup.Parts, Setup.PartitionTasks, Setup.MergeTasks, Setup.LastTask;
    var a, p, m, z := c.PartitionTasks(), ProcessTasks(c.Parts()), c.MergeTasks(), [c.LastTask()];
    ProcessReadsAndWrites(c.Parts());
    PartitionWrites(c);
    AllWritesConcat(a, p);
    AllWritesConcat(a + p, m);
    AllWritesConcat(a + p + m, z);
  }

  lemma {:induction false} LastWrites(c: Setup)
    requires c.N() > 0
    ensures AllWrites([c.LastTask()]) == {c.Output()}
  {
    assert [c.LastTask()][1..] == [];
  }

  lemma {:induction false} PartitionWrites(c: Setup)
    ensures AllWrites(c.PartitionTasks()) == if c.preset.Some? then {} else KeySet(c.Parts())
  {
    if c.preset.None? {
      assert c.PartitionTasks()[1..] == [];
      forall k ensures k in Writes(c.PartitionTasks()[0]) <==> k in KeySet(c.Parts()) {
        if k.Part? && k.i < c.partitions {
          assert c.Parts()[k.i] == k;
        }
      }
    }
  }

  /** After the cleanup the store holds the start and every written object except the cleaned keys. */
  lemma {:induction false} CleanedStore<V>(job: Job<V>, w: World<V>)
    requires StoreKeys(job, w) && w.cleaned && job.cleanup.Some?
    ensures w.store.Keys == (job.start.Keys + AllWrites(job.tasks)) - KeySet(job.cleanup.value)
  {
    forall k ensures WrittenBy(job, w.done, k) <==> k in AllWrites(job.tasks) {
      if WrittenBy(job, w.done, k) {
        var i :| i in w.done && i < |job.tasks| && k in Writes(job.tasks[i]);
        InAllWrites(job.tasks, i);
      } else if k in AllWrites(job.tasks) {
        var j := WriterOf(job.tasks, k);
        assert false;
      }
    }
    hide WrittenBy, AllWrites;
  }

  lemma {:induction false} IntermediateKeys(c: Setup)
    requires c.N() > 0
    ensures KeySet(c.Intermediate()) ==
            (if c.preset.Some? then {Placeholder} else KeySet(c.Parts())) + KeySet(ProcKeys(c.N())) + {c.MergeRoot()}
  {
    hide Setup.MergeRoot;
    var ks := if c.preset.Some? then seq(c.N(), _ => Placeholder) else c.Parts();
    assert c.preset.Some? ==> ks[0] == Placeholder;
    assert KeySet(ks + ProcKeys(c.N()) + [c.MergeRoot()]) ==
           KeySet(ks) + KeySet(ProcKeys(c.N())) + {c.MergeRoot()};
  }

  lemma {:induction false} SparedKeys<T>(before: set<T>, parts: set<T>, inner: set<T>, gone: set<T>, root: T, out: T)
    requires parts <= gone && root in gone && gone !! before + {out} && inner * gone <= {root}
    ensures (before + (parts + inner + {out})) - gone == before + {out} + (inner - {root})
  {
  }

  lemma {:induction false} CleanedResults(c: Setup)
    requires c.N() > 0
    ensures AllWrites(c.MergeTasks()) * KeySet(c.Intermediate()) <= {c.MergeRoot()}
    ensures InnerResults(c) == AllWrites(c.MergeTasks()) - {c.MergeRoot()}
  {
    MergeWrites(c);
    hide AllWrites, Setup.MergeTasks, Setup.MergeRoot;
    assert forall k :: k in c.Intermediate() ==> k.Part? || k.Placeholder? || k.Proc? || k == c.MergeRoot();
  }

  /** Of everything the plan writes, the cleanup spares the output and the inner results. */
  lemma {:induction false} CleanupMisses(c: Setup, initial: set<Key>)
    requires Starts(c, initial) && c.Output() !in initial
    ensures (initial + AllWrites(c.Tasks())) - KeySet(c.Intermediate()) == initial + {c.Output()} + InnerResults(c)
  {
    hide *;
    AtLeastOne(c, initial);
    PlanWrites(c, initial);
    IntermediateKeys(c);
    CleanupSpares(c, initial);
    CleanedResults(c);
    var parts := (if c.preset.Some? then {} else KeySet(c.Parts())) + KeySet(ProcKeys(c.N()));
    SparedKeys(initial, parts, AllWrites(c.MergeTasks()), KeySet(c.Intermediate()), c.MergeRoot(), c.Output());
  }

  /** In every run in which the cleanup has run, the store holds what was there before, the output and
      the inner results of the merge tree, and nothing else. */
  lemma {:induction false} CleanupLeaves<V>(c: Setup, start: map<Key, V>, f: Funcs<V>, es: seq<Event>)
    requires Submitted(c, start, f) && c.Output() !in start && !c.keepIntermediate
    requires var job := JobOf(c, start, f); IsRun(job, Begin(job), es) && After(job, Begin(job), es).cleaned
    ensures var job := JobOf(c, start, f);
            After(job, Begin(job), es).store.Keys == start.Keys + {c.Output()} + InnerResults(c)
  {
    hide Starts, Sound, StoreKeys, StoreValues, Closed, IsRun, After, AllWrites, Setup.Tasks, Setup.Intermediate,
      InnerResults, KeySet, Setup.N;
    AtLeastOne(c, start.Keys);
    var job := JobOf(c, start, f);
    PlanIsSound(c, start, f);
    InvBegin(job);
    InvRun(job, Begin(job), es);
    CleanedStore(job, After(job, Begin(job), es));
    CleanupMisses(c, start.Keys);
  }

  /** Nine summary partitions: two batches in the first stage, and both their results stay. */
  lemma {:induction false} NinePartitionsLeaveTwo()
    ensures InnerResults(Setup(None, 9, true, false, false, "out")) == {MergeOut(0, 0), MergeOut(0, 1)}
  {
    var c := Setup(None, 9, true, false, false, "out");
    var keys, outs := ProcKeys(9), StageOuts(0, 2);
    var bs := Batches(keys, 8);
    assert |bs| == 2 by { assert Batches(keys[8..], 8) == [keys[8..]]; }
    StageReadsAndWrites(keys, 8, 0);
    AllWritesConcat(StageTasks(0, bs), TreeTasks(outs, 8, 1));
    assert Batches(outs, 8) == [outs];
    var last := StageTasks(1, [outs]);
    assert StageOuts(1, 1) == [MergeOut(1, 0)];
    assert TreeTasks(outs, 8, 1) == last by { assert last + [] == last; }
    assert AllWrites(last) == {MergeOut(1, 0)} by { assert last[1..] == []; }
    assert outs == [MergeOut(0, 0), MergeOut(0, 1)];
    assert c.MergeRoot() == MergeOut(1, 0);
  }

  /** Cleanup removes every intermediate object, in every run, exactly when the merge is not a tree or
      at most 8 partitions make it a tree of one stage. */
  lemma {:induction false} CleanupIsCompleteIff<V>(c: Setup, start: map<Key, V>, f: Funcs<V>, es: seq<Event>)
    requires Submitted(c, start, f) && c.Output() !in start && !c.keepIntermediate
    requires var job := JobOf(c, start, f); IsRun(job, Begin(job), es) && After(job, Begin(job), es).cleaned
    ensures var job := JobOf(c, start, f);
            After(job, Begin(job), es).store.Keys == start.Keys + {c.Output()} <==> !c.summary || c.N() <= 8
  {
    CleanupLeaves(c, start, f, es);
    MergeWrites(c);
    hide AllWrites, Setup.MergeTasks, Setup.MergeRoot, IsRun, After;
    forall k | k in InnerResults(c) ensures k !in start.Keys + {c.Output()} {
      assert k.MergeOut? || k.Merged?;
    }
  }

  // ---------------------------------------------------------------------------
  // The planner
  // ---------------------------------------------------------------------------

  lemma {:induction false} SliceOfTail<T>(xs: seq<T>, n: nat, lo: nat, hi: nat)
    requires n <= |xs| && lo <= hi <= |xs| - n
    ensures xs[n..][lo..hi] == xs[n + lo..n + hi]
  {
  }

  lemma {:induction false} BatchesStep<T>(xs: seq<T>, fan: nat, k: nat)
    requires fan > 0 && k < |Batches(xs, fan)|
    ensures Times(k, fan) < |xs|
    ensures Batches(xs, fan)[k] == xs[Times(k, fan)..Min(Times(k + 1, fan), |xs|)]
    ensures k + 1 == |Batches(xs, fan)| <==> Times(k + 1, fan) >= |xs|
    decreases k
  {
    if k > 0 {
      var tail := xs[fan..];
      BatchesStep(tail, fan, k - 1);
      assert Batches(xs, fan)[k] == Batches(tail, fan)[k - 1];
      var lo, hi := Times(k - 1, fan), Min(Times(k, fan), |tail|);
      SliceOfTail(xs, fan, lo, hi);
    }
  }

  lemma {:induction false} RestParts(before: seq<Task>, c: Setup)
    requires c.summary ==> c.N() > 0
    ensures before + ProcessTasks(c.Parts()) + c.MergeTasks() + [c.LastTask()]
            + (if c.keepIntermediate then [] else [Cleanup(c.Intermediate(), c.Output())]) == before + c.Rest()
  {
  }

  lemma {:induction false} RestCompletes(before: seq<Task>, c: Setup)
    requires c.summary ==> c.N() > 0
    ensures before + c.PartitionTasks() + c.Rest() ==
            before + c.Tasks() + if c.keepIntermediate then [] else [Cleanup(c.Intermediate(), c.Output())]
  {
    hide ProcessTasks, Setup.Parts, Setup.MergeTasks, Setup.LastTask, Setup.Intermediate, Setup.PartitionTasks;
  }

  lemma {:induction false} NoProcessTasks(parts: seq<Key>)
    ensures parts == [] ==> ProcessTasks(parts) == []
  {
  }

  /** What the planner is told: its configuration; an input only when one was passed to run. */
  class MapReduceJob<D> {
    const outputName: string
    const preset: Option<seq<string>>
    /** None when it raises on the given data. */
    const partitionFn: Option<D -> Option<seq<D>>>
    const hasProcessor: bool
    /** Whether a merger was set, and whether it is of type "summary". */
    const merger: Option<bool>
    const hasFinalizer: bool
    const keepIntermediate: bool

    var numPartitions: nat
    var partitionKeys: seq<Key>
    var processedKeys: seq<Key>
    var intermediateKeys: seq<Key>
    var mergeOutputKey: Key
    /** Tasks handed to the master, in order. */
    var submitted: seq<Task>

    constructor (outputName: string, preset: Option<seq<string>>, partitionFn: Option<D -> Option<seq<D>>>,
                 hasProcessor: bool, merger: Option<bool>, hasFinalizer: bool, keepIntermediate: bool)
      ensures submitted == [] && this.outputName == outputName && this.preset == preset
      ensures this.partitionFn == partitionFn && this.hasProcessor == hasProcessor && this.merger == merger
      ensures this.hasFinalizer == hasFinalizer && this.keepIntermediate == keepIntermediate
    {
      this.outputName, this.preset, this.partitionFn := outputName, preset, partitionFn;
      this.hasProcessor, this.merger, this.hasFinalizer := hasProcessor, merger, hasFinalizer;
      this.keepIntermediate := keepIntermediate;
      numPartitions, partitionKeys, processedKeys, intermediateKeys := 0, [], [], [];
      mergeOutputKey, submitted := Merged, [];
    }

    /** The partition phase succeeds: names are preset, or the dry run is. */
    predicate Partitionable(input: Option<D>) {
      preset.Some? || (input.Some? && partitionFn.Some? && partitionFn.value(input.value).Some?)
    }

    ghost function SetupFor(input: Option<D>): Setup
      requires merger.Some? && Partitionable(input)
    {
      var partitions := if preset.Some? then 0 else |partitionFn.value(input.value).value|;
      Setup(preset, partitions, merger.value, hasFinalizer, keepIntermediate, outputName)
    }

    /** One stage of the tree: a task per batch of at most fanIn keys. */
    method RunStage(currentKeys: seq<Key>, fanIn: nat, stage: nat) returns (nextKeys: seq<Key>)
      requires fanIn > 0 && currentKeys != []
      modifies `submitted
      ensures nextKeys == StageOuts(stage, |Batches(currentKeys, fanIn)|)
      ensures submitted == old(submitted) + StageTasks(stage, Batches(currentKeys, fanIn))
    {
      ghost var bs := Batches(currentKeys, fanIn);
      nextKeys := [];
      var start, mergeId := 0, 0;
      while start < |currentKeys|
        invariant 0 <= mergeId <= |bs| && start == Times(mergeId, fanIn)
        invariant start < |currentKeys| <==> mergeId < |bs|
        invariant nextKeys == StageOuts(stage, mergeId)
        invariant submitted == old(submitted) + StageTasks(stage, bs)[..mergeId]
        decreases |currentKeys| - start
      {
        BatchesStep(currentKeys, fanIn, mergeId);
        var batch := currentKeys[start..Min(start + fanIn, |currentKeys|)];
        submitted := submitted + [SummaryMerge(stage, mergeId, batch)];
        nextKeys := nextKeys + [MergeOut(stage, mergeId)];
        mergeId := mergeId + 1;
        start := start + fanIn;
      }
    }

    /** The multi-stage tree; raises when there is no partition. */
    method RunSummaryMerge() returns (r: Result<Key>)
      requires processedKeys == ProcKeys(numPartitions)
      modifies `submitted
      ensures r.Ok? <==> numPartitions > 0
      ensures r.Err? ==> submitted == old(submitted)
      ensures r.Ok? ==> var fan := Min(numPartitions, 8);
                        && r.value == TreeRoot(processedKeys, fan, 0)
                        && submitted == old(submitted) + TreeTasks(processedKeys, fan, 0)
    {
      var fanIn := Min(numPartitions, 8);
      var currentKeys, stage := processedKeys, 0;
      while |currentKeys| > 1
        invariant numPartitions > 0 ==> currentKeys != []
        invariant numPartitions == 0 ==> currentKeys == []
        invariant |currentKeys| > 1 ==> fanIn > 1
        invariant numPartitions > 0 ==>
                    TreeRoot(processedKeys, fanIn, 0) == TreeRoot(currentKeys, fanIn, stage)
        invariant numPartitions > 0 ==>
                    old(submitted) + TreeTasks(processedKeys, fanIn, 0) ==
                    submitted + TreeTasks(currentKeys, fanIn, stage)
        invariant numPartitions == 0 ==> submitted == old(submitted)
        decreases |currentKeys|
      {
        currentKeys := RunStage(currentKeys, fanIn, stage);
        stage := stage + 1;
      }
      if currentKeys != [] {
        r := Ok(currentKeys[0]);
      } else {
        r := Err("list index out of range");
      }
    }

    /** A single merge of all processed results. */
    method RunFullMerge() returns (outputKey: Key)
      modifies `submitted
      ensures outputKey == Merged
      ensures submitted == old(submitted) + [FullMerge(processedKeys, Merged)]
    {
      outputKey := Merged;
      submitted := submitted + [FullMerge(processedKeys, outputKey)];
    }

    method SubmitProcess()
      requires |partitionKeys| == numPartitions
      modifies `submitted, `processedKeys, `intermediateKeys
      ensures submitted == old(submitted) + ProcessTasks(partitionKeys)
      ensures processedKeys == ProcKeys(numPartitions)
      ensures intermediateKeys == old(intermediateKeys) + processedKeys
    {
      for i := 0 to numPartitions
        modifies `submitted
        invariant submitted == old(submitted) + ProcessTasks(partitionKeys)[..i]
      {
        submitted := submitted + [Process(i, partitionKeys[i])];
      }
      var keys := [];
      for i := 0 to numPartitions
        invariant keys == ProcKeys(i)
      {
        keys := keys + [Proc(i)];
      }
      processedKeys := keys;
      intermediateKeys := intermediateKeys + processedKeys;
    }

    method PresetPartitions(names: seq<string>)
      modifies `numPartitions, `partitionKeys, `intermediateKeys
      ensures numPartitions == |names| && partitionKeys == UserKeys(names)
      ensures intermediateKeys == old(intermediateKeys) + seq(|names|, _ => Placeholder)
    {
      numPartitions := |names|;
      var keys := [];
      for i := 0 to |names|
        modifies `intermediateKeys
        invariant intermediateKeys == old(intermediateKeys) + seq(i, _ => Placeholder)
        invariant keys == UserKeys(names[..i])
      {
        intermediateKeys := intermediateKeys + [Placeholder];
        keys := keys + [User(names[i])];
      }
      assert names[..|names|] == names;
      partitionKeys := keys;
    }

    method CountedPartitions(n: nat)
      modifies `numPartitions, `partitionKeys, `intermediateKeys
      ensures numPartitions == n && partitionKeys == PartKeys(n)
      ensures intermediateKeys == old(intermediateKeys) + PartKeys(n)
    {
      numPartitions := n;
      var keys := [];
      for i := 0 to n
        invariant keys == PartKeys(i)
      {
        keys := keys + [Part(i)];
      }
      partitionKeys := keys;
      intermediateKeys := intermediateKeys + partitionKeys;
    }

    /** The partition phase: the keys to process and the first intermediate keys. */
    method Partitions(input: Option<D>) returns (error: Option<string>)
      requires merger.Some?
      modifies `numPartitions, `partitionKeys, `intermediateKeys, `submitted
      ensures error.None? <==> Partitionable(input)
      ensures error.None? ==>
                var c := SetupFor(input);
                && numPartitions == c.N() && partitionKeys == c.Parts()
                && intermediateKeys == (if preset.Some? then seq(c.N(), _ => Placeholder) else c.Parts())
                && submitted == old(submitted) + c.PartitionTasks()
      ensures error.Some? && (input.None? || partitionFn.None?) ==> submitted == old(submitted)
      ensures error.Some? && input.Some? && partitionFn.Some? ==> submitted == old(submitted) + [Partition(0)]
    {
      intermediateKeys, error := [], None;
      if preset.Some? {
        PresetPartitions(preset.value);
      } else if input.None? {
        error := Some("input_data required when no pre_partitioned names set");
      } else if partitionFn.None? {
        error := Some("Partitioner must be set via set_partitioner() or use set_pre_partitioned()");
      } else {
        // The worker's task is submitted before the local dry run counts the partitions.
        var dry := partitionFn.value(input.value);
        submitted := submitted + [Partition(if dry.Some? then |dry.value| else 0)];
        if dry.None? {
          error := Some("Partition function must accept the input data and return a list of partitions.");
          return;
        }
        CountedPartitions(|dry.value|);
      }
    }

    /** The merge phase. */
    method Merge() returns (error: Option<string>)
      requires merger.Some? && processedKeys == ProcKeys(numPartitions)
      modifies `submitted, `mergeOutputKey, `intermediateKeys
      ensures error.None? <==> (merger.value ==> numPartitions > 0)
      ensures error.None? && merger.value ==>
                var fan := Min(numPartitions, 8);
                && mergeOutputKey == TreeRoot(processedKeys, fan, 0)
                && submitted == old(submitted) + TreeTasks(processedKeys, fan, 0)
      ensures error.None? && !merger.value ==>
                mergeOutputKey == Merged && submitted == old(submitted) + [FullMerge(processedKeys, Merged)]
      ensures error.None? ==> intermediateKeys == old(intermediateKeys) + [mergeOutputKey]
      ensures error.Some? ==> submitted == old(submitted)
    {
      if merger.value {
        var r := RunSummaryMerge();
        if r.Err? { return Some(r.message); }
        mergeOutputKey := r.value;
      } else {
        mergeOutputKey := RunFullMerge();
      }
      intermediateKeys := intermediateKeys + [mergeOutputKey];
      error := None;
    }

    /** The last task and, unless intermediates are kept, the cleanup. */
    method Finish()
      modifies `submitted
      ensures submitted == old(submitted)
                + [if hasFinalizer then Finalize(User(outputName), mergeOutputKey)
                   else CopyOut(mergeOutputKey, User(outputName))]
                + (if keepIntermediate then [] else [Cleanup(intermediateKeys, User(outputName))])
    {
      if hasFinalizer {
        submitted := submitted + [Finalize(User(outputName), mergeOutputKey)];
      } else {
        submitted := submitted + [CopyOut(mergeOutputKey, User(outputName))];
      }
      if !keepIntermediate {
        submitted := submitted + [Cleanup(intermediateKeys, User(outputName))];
      }
    }

    /** Everything after the partition phase. */
    method SubmitRest(ghost c: Setup) returns (error: Option<string>)
      requires merger.Some? && c.summary == merger.value && c.finalizer == hasFinalizer
      requires c.keepIntermediate == keepIntermediate && c.outputName == outputName
      requires numPartitions == c.N() && partitionKeys == c.Parts()
      requires intermediateKeys == (if c.preset.Some? then seq(c.N(), _ => Placeholder) else c.Parts())
      modifies this
      ensures error.None? <==> (merger.value ==> c.N() > 0)
      ensures error.None? ==> submitted == old(submitted) + c.Rest()
      ensures error.Some? ==> submitted == old(submitted)
    {
      hide TreeTasks, TreeRoot, UserKeys, PartKeys, ProcKeys, ProcessTasks, Setup.Parts, Setup.N, Setup.Rest;
      NoProcessTasks(partitionKeys);
      SubmitProcess();
      error := Merge();
      if error.None? {
        Finish();
        RestParts(old(submitted), c);
      }
    }

    /** Submits the whole job without waiting for it. */
    method Run(input: Option<D>) returns (error: Option<string>)
      modifies this
      ensures error.None? <==>
              (merger.Some? && hasProcessor && Partitionable(input) && (merger.value ==> SetupFor(input).N() > 0))
      ensures merger.None? || !hasProcessor ==> submitted == old(submitted)
      ensures !Partitionable(input) && (input.None? || partitionFn.None?) ==> submitted == old(submitted)
      ensures merger.Some? && hasProcessor && !Partitionable(input) && input.Some? && partitionFn.Some? ==>
                submitted == old(submitted) + [Partition(0)]
      ensures merger.Some? && hasProcessor && Partitionable(input) && error.Some? ==>
                submitted == old(submitted) + SetupFor(input).PartitionTasks()
      ensures error.None? ==>
                var c := SetupFor(input);
                submitted == old(submitted) + c.Tasks()
                             + (if keepIntermediate then [] else [Cleanup(c.Intermediate(), c.Output())])
    {
      hide ProcessTasks, Setup.Parts, Setup.MergeTasks, Setup.LastTask, Setup.Intermediate, Setup.PartitionTasks,
        Setup.Rest, Setup.Tasks, Setup.Output;
      if merger.None? {
        return Some("Merger must be set via set_merger()");
      }
      if !hasProcessor {
        return Some("Processor must be set via set_processor()");
      }
      error := Partitions(input);
      if error.None? {
        error := SubmitRest(SetupFor(input));
        if error.None? {
          RestCompletes(old(submitted), SetupFor(input));
        }
      }
    }
  }
}

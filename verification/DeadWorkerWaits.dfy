/**
 Waits without a timeout, and what ends them (src/agent/cpp/master_agent.cpp): merge tasks and
 deletions that a worker was asked for.

 A dispatch opens an entry and, in a later section, looks the worker's connection up. A worker
 that is declared dead or exited is settled: a snapshot of its open entries is taken and each is
 completed as failed. Disconnects, reconnects, answers, dispatches and settlements interleave.
 */
module DeadWorkerWaits {

  // ---------------------------------------------------------------------------
  // Keys of deletions
  // ---------------------------------------------------------------------------

  function Digit(d: nat): char
    requires d < 10
  {
    "0123456789"[d]
  }

  function Decimal(n: nat): (s: string)
    ensures s != "" && ':' !in s && (|s| == 1 <==> n < 10)
  {
    if n < 10 then [Digit(n)] else Decimal(n / 10) + [Digit(n % 10)]
  }

  lemma {:induction false} DecimalInjective(a: nat, b: nat)
    requires Decimal(a) == Decimal(b)
    ensures a == b
    decreases a
  {
    var s := Decimal(a);
    assert s[|s| - 1] == Digit(a % 10) == Digit(b % 10);
    if a >= 10 {
      assert Decimal(a / 10) == s[..|s| - 1] == Decimal(b / 10);
      DecimalInjective(a / 10, b / 10);
    }
  }

  /** Key of the deletion asked from one worker. */
  function AckKey(db: string, worker: nat): string { db + ":" + Decimal(worker) }

  /** The test that picks a dead worker's deletions. */
  function Suffix(worker: nat): string { ":" + Decimal(worker) }

  predicate HasSuffix(key: string, worker: nat) {
    |key| > |Suffix(worker)| && key[|key| - |Suffix(worker)|..] == Suffix(worker)
  }

  /** It picks exactly that worker's keys, whatever the database is called; only a nameless
      database escapes it. */
  lemma {:induction false} SuffixMatchesWorker(db: string, v: nat, w: nat)
    ensures HasSuffix(AckKey(db, v), w) <==> v == w && db != ""
  {
    hide Decimal;
    var key := AckKey(db, v);
    assert key == db + Suffix(v) by { assert db + ":" + Decimal(v) == db + (":" + Decimal(v)); }
    if v == w {
      assert key[|db|..] == Suffix(w);
    }
    if HasSuffix(key, w) {
      SameLastSegment(db, Decimal(v), Decimal(w));
      DecimalInjective(v, w);
    }
  }

  /** Two colon-free segments that end the same string after a colon are the same. */
  lemma {:induction false} SameLastSegment(db: string, a: string, b: string)
    requires ':' !in a && ':' !in b
    requires var key := db + (":" + a); |key| >= |b| + 1 && key[|key| - |b| - 1..] == ":" + b
    ensures a == b
  {
    var key := db + (":" + a);
    var p := |key| - |b| - 1;
    assert key[|db|] == ':' && key[|db| + 1..] == a;
    assert key[p] == key[p..][0] == ':';
    assert forall i :: |db| < i < |key| ==> key[i] == a[i - |db| - 1] && key[i] in a;
    assert forall i :: p < i < |key| ==> key[i] == key[p..][i - p] && key[i] == b[i - p - 1] && key[i] in b;
    assert p == |db|;
    assert key[p..][1..] == b;
  }

  // ---------------------------------------------------------------------------
  // Steps
  // ---------------------------------------------------------------------------

  datatype Entry = Entry(completed: bool, success: bool)

  /** opening: dispatches between opening their entry and looking the connection up. lost:
      disconnected, and no handler has taken its snapshot yet. settling: what a handler still
      has to complete. */
  datatype State<K> = State(entries: map<K, Entry>, opening: set<K>, connected: set<nat>, lost: set<nat>,
                            settling: map<nat, set<K>>)

  datatype Event<K> =
    | Open(k: K)
    | Lookup(k: K)
    | Answer(k: K, success: bool)
    | Connect(w: nat)
    | Disconnect(w: nat)
    | Snapshot(w: nat)
    | SettleOne(w: nat, k: K)
    | Consume(k: K)

  ghost predicate Enabled<K>(s: State<K>, e: Event<K>) {
    match e
    case Open(k) => k !in s.opening
    case Lookup(k) => k in s.opening
    case SettleOne(w, k) => w in s.settling && k in s.settling[w]
    case Consume(k) => k !in s.opening
    case _ => true
  }

  ghost function Finished<K>(entries: map<K, Entry>, k: K, success: bool): map<K, Entry> {
    if k in entries then entries[k := Entry(true, success)] else entries
  }

  /** Entries of worker w that are still open. */
  ghost function OpenFor<K>(workerOf: K -> nat, entries: map<K, Entry>, w: nat): set<K> {
    set k | k in entries && !entries[k].completed && workerOf(k) == w
  }

  ghost function Step<K>(workerOf: K -> nat, s: State<K>, e: Event<K>): State<K>
    requires Enabled(s, e)
  {
    match e
    case Open(k) =>
      // An entry that is already there is kept.
      s.(opening := s.opening + {k},
         entries := if k in s.entries then s.entries else s.entries[k := Entry(false, false)])
    case Lookup(k) =>
      if workerOf(k) in s.connected then s.(opening := s.opening - {k})
      else s.(opening := s.opening - {k}, entries := s.entries[k := Entry(true, false)])
    case Answer(k, success) => s.(entries := Finished(s.entries, k, success))
    case Connect(w) => s.(connected := s.connected + {w}, lost := s.lost - {w})
    case Disconnect(w) => s.(connected := s.connected - {w}, lost := s.lost + {w})
    case Snapshot(w) =>
      var more := if w in s.settling then s.settling[w] else {};
      s.(lost := s.lost - {w}, settling := s.settling[w := more + OpenFor(workerOf, s.entries, w)])
    case SettleOne(w, k) =>
      s.(settling := s.settling[w := s.settling[w] - {k}],
         entries := if k in s.entries && !s.entries[k].completed then Finished(s.entries, k, false) else s.entries)
    case Consume(k) => s.(entries := s.entries - {k})
  }

  ghost predicate IsRun<K>(workerOf: K -> nat, s: State<K>, es: seq<Event<K>>)
    decreases |es|
  {
    es == [] || (Enabled(s, es[0]) && IsRun(workerOf, Step(workerOf, s, es[0]), es[1..]))
  }

  ghost function After<K>(workerOf: K -> nat, s: State<K>, es: seq<Event<K>>): State<K>
    requires IsRun(workerOf, s, es)
    decreases |es|
  {
    if es == [] then s else After(workerOf, Step(workerOf, s, es[0]), es[1..])
  }

  ghost function Begin<K>(): State<K> { State(map[], {}, {}, {}, map[]) }

  // ---------------------------------------------------------------------------
  // Every wait is released
  // ---------------------------------------------------------------------------

  ghost predicate Listed<K>(s: State<K>, w: nat, k: K) { w in s.settling && k in s.settling[w] }

  /** An open entry that was dispatched has someone left to end it: the connected worker, the
      handler that will take its snapshot, or the one that has it on its list. */
  ghost predicate Awaited<K>(workerOf: K -> nat, s: State<K>) {
    forall k :: k in s.entries && !s.entries[k].completed && k !in s.opening ==>
      workerOf(k) in s.connected || workerOf(k) in s.lost || Listed(s, workerOf(k), k)
  }

  lemma {:induction false} StepKeepsAwaited<K>(workerOf: K -> nat, s: State<K>, e: Event<K>)
    requires Awaited(workerOf, s) && Enabled(s, e)
    ensures Awaited(workerOf, Step(workerOf, s, e))
  {
  }

  lemma {:induction false} RunKeepsAwaited<K>(workerOf: K -> nat, s: State<K>, es: seq<Event<K>>)
    requires Awaited(workerOf, s) && IsRun(workerOf, s, es)
    ensures Awaited(workerOf, After(workerOf, s, es))
    decreases |es|
  {
    hide Awaited, Enabled, Step;
    if es != [] {
      StepKeepsAwaited(workerOf, s, es[0]);
      RunKeepsAwaited(workerOf, Step(workerOf, s, es[0]), es[1..]);
    }
  }

  /** For every interleaving of dispatches with disconnects and settlements: once a worker is
      gone for good, that is disconnected and settled, no dispatched wait for it is open. */
  lemma {:induction false} GoneWorkerReleasesWaits<K>(workerOf: K -> nat, es: seq<Event<K>>, k: K)
    requires IsRun(workerOf, Begin(), es)
    ensures var s := After(workerOf, Begin(), es);
            var w := workerOf(k);
            (k in s.entries && k !in s.opening && w !in s.connected && w !in s.lost
             && (w in s.settling ==> s.settling[w] == {})) ==> s.entries[k].completed
  {
    RunKeepsAwaited(workerOf, Begin(), es);
  }

  /** A released wait stays released until its waiter has taken the result. */
  lemma {:induction false} ReleasedStaysReleased<K>(workerOf: K -> nat, s: State<K>, es: seq<Event<K>>, k: K)
    requires IsRun(workerOf, s, es) && k in s.entries && s.entries[k].completed && Consume(k) !in es
    ensures var s' := After(workerOf, s, es); k in s'.entries && s'.entries[k].completed
    decreases |es|
  {
    if es != [] {
      assert es[0] != Consume(k);
      ReleasedStaysReleased(workerOf, Step(workerOf, s, es[0]), es[1..], k);
    }
  }

  /** Settling a worker fails only open waits for that worker. */
  lemma {:induction false} SettleTouchesOwn<K(!new)>(workerOf: K -> nat, es: seq<Event<K>>, w: nat, k: K)
    requires IsRun(workerOf, Begin(), es)
    requires var s := After(workerOf, Begin(), es); Enabled(s, SettleOne(w, k))
    ensures workerOf(k) == w
    ensures var s := After(workerOf, Begin(), es);
            var s' := Step(workerOf, s, SettleOne(w, k));
            && (forall j :: j in s.entries && j != k ==> j in s'.entries && s'.entries[j] == s.entries[j])
            && (k in s.entries && s.entries[k].completed ==> s'.entries == s.entries)
  {
    assert ListsOwn(workerOf, Begin<K>());
    RunListsOwn(workerOf, Begin(), es);
    assert Listed(After(workerOf, Begin(), es), w, k);
  }

  ghost predicate ListsOwn<K(!new)>(workerOf: K -> nat, s: State<K>) {
    forall w, k :: Listed(s, w, k) ==> workerOf(k) == w
  }

  lemma {:induction false} RunListsOwn<K(!new)>(workerOf: K -> nat, s: State<K>, es: seq<Event<K>>)
    requires ListsOwn(workerOf, s) && IsRun(workerOf, s, es)
    ensures ListsOwn(workerOf, After(workerOf, s, es))
    decreases |es|
  {
    if es != [] {
      var s' := Step(workerOf, s, es[0]);
      forall w, k | Listed(s', w, k) ensures workerOf(k) == w {
        assert Listed(s, w, k) || (es[0] == Snapshot(w) && k in OpenFor(workerOf, s.entries, w));
      }
      RunListsOwn(workerOf, s', es[1..]);
    }
  }

  /** How an open wait ends: with the worker's own verdict if the worker answers, as failed if the
      worker is not connected or is settled; every other wait stays as it is. */
  lemma {:induction false} WaitEnds<K(!new)>(workerOf: K -> nat, s: State<K>, e: Event<K>)
    requires Enabled(s, e) && (e.Answer? || e.Lookup? || e.SettleOne?)
    ensures var s' := Step(workerOf, s, e);
            && (forall j :: j != e.k ==> (j in s'.entries <==> j in s.entries))
            && (forall j :: j != e.k && j in s.entries ==> s'.entries[j] == s.entries[j])
            && (e.Answer? && e.k in s.entries ==> e.k in s'.entries && s'.entries[e.k] == Entry(true, e.success))
            && (e.Lookup? && workerOf(e.k) !in s.connected ==>
                  e.k in s'.entries && s'.entries[e.k] == Entry(true, false))
            && (e.SettleOne? && e.k in s.entries && !s.entries[e.k].completed ==>
                  e.k in s'.entries && s'.entries[e.k] == Entry(true, false))
  {
  }

  // ---------------------------------------------------------------------------
  // Deletions are found by the end of their key
  // ---------------------------------------------------------------------------

  ghost predicate IsKey(key: string) { exists db: string, w: nat :: key == AckKey(db, w) }

  /** Key of a deletion in a database that has a name. */
  ghost predicate IsNamedKey(key: string) { exists db: string, w: nat :: key == AckKey(db, w) && db != "" }

  /** The worker of a deletion's key. */
  ghost function KeyWorker(key: string): nat {
    if IsKey(key) then var db: string, w: nat :| key == AckKey(db, w); w else 0
  }

  /** What the code's snapshot holds. */
  ghost function OpenBySuffix(entries: map<string, Entry>, w: nat): set<string> {
    set key | key in entries && !entries[key].completed && HasSuffix(key, w)
  }

  lemma {:induction false} KeyWorkerIsWorker(db: string, w: nat)
    ensures KeyWorker(AckKey(db, w)) == w
    ensures IsNamedKey(AckKey(db, w)) <==> db != ""
  {
    var key := AckKey(db, w);
    forall db', w' | key == AckKey(db', w') ensures w' == w && db' == db {
      SuffixMatchesWorker("x" + db, w, w);
      SuffixMatchesWorker("x" + db', w', w);
      assert AckKey("x" + db, w) == "x" + AckKey(db, w) && AckKey("x" + db', w') == "x" + AckKey(db', w');
      hide Decimal;
      assert key[..|key| - 1 - |Decimal(w)|] == db && key[..|key| - 1 - |Decimal(w)|] == db';
    }
  }

  /** The snapshot by suffix takes all open deletions of the worker exactly when none of them is
      for a nameless database. */
  lemma {:induction false} SuffixSnapshotIff(entries: map<string, Entry>, w: nat)
    requires forall key :: key in entries ==> IsKey(key)
    ensures OpenBySuffix(entries, w) <= OpenFor(KeyWorker, entries, w)
    ensures OpenBySuffix(entries, w) == OpenFor(KeyWorker, entries, w) <==>
            forall key :: key in OpenFor(KeyWorker, entries, w) ==> IsNamedKey(key)
  {
    hide AckKey, HasSuffix, KeyWorker, IsNamedKey;
    forall key | key in entries
      ensures HasSuffix(key, w) <==> KeyWorker(key) == w && IsNamedKey(key)
    {
      var db, v :| key == AckKey(db, v);
      KeyWorkerIsWorker(db, v);
      SuffixMatchesWorker(db, v, w);
    }
    var found, all := OpenBySuffix(entries, w), OpenFor(KeyWorker, entries, w);
    if found == all {
      forall key | key in all ensures IsNamedKey(key) {
        assert key in found;
      }
    }
  }

  /** The steps of the deletion table: the snapshot goes by suffix. */
  ghost function DeleteStep(s: State<string>, e: Event<string>): State<string>
    requires Enabled(s, e)
  {
    if e.Snapshot? then
      var more := if e.w in s.settling then s.settling[e.w] else {};
      s.(lost := s.lost - {e.w}, settling := s.settling[e.w := more + OpenBySuffix(s.entries, e.w)])
    else Step(KeyWorker, s, e)
  }

  ghost predicate IsDeleteRun(s: State<string>, es: seq<Event<string>>)
    decreases |es|
  {
    es == [] || (Enabled(s, es[0]) && IsDeleteRun(DeleteStep(s, es[0]), es[1..]))
  }

  ghost function AfterDeletes(s: State<string>, es: seq<Event<string>>): State<string>
    requires IsDeleteRun(s, es)
    decreases |es|
  {
    if es == [] then s else AfterDeletes(DeleteStep(s, es[0]), es[1..])
  }

  ghost predicate AllNamed(s: State<string>) {
    (forall key :: key in s.entries ==> IsNamedKey(key)) && (forall key :: key in s.opening ==> IsNamedKey(key))
  }

  lemma {:induction false} NamedStep(s: State<string>, e: Event<string>)
    requires AllNamed(s) && Enabled(s, e) && (e.Open? ==> IsNamedKey(e.k))
    ensures DeleteStep(s, e) == Step(KeyWorker, s, e) && AllNamed(DeleteStep(s, e))
  {
    if e.Snapshot? {
      SuffixSnapshotIff(s.entries, e.w);
    }
    hide IsNamedKey, KeyWorker, HasSuffix;
  }

  /** With named databases the code's runs are runs of the step system above. */
  lemma {:induction false} NamedRun(s: State<string>, es: seq<Event<string>>)
    requires AllNamed(s) && IsDeleteRun(s, es) && forall i :: 0 <= i < |es| && es[i].Open? ==> IsNamedKey(es[i].k)
    ensures IsRun(KeyWorker, s, es) && AfterDeletes(s, es) == After(KeyWorker, s, es)
    decreases |es|
  {
    hide AllNamed, IsNamedKey, KeyWorker, DeleteStep, Step, Enabled;
    if es != [] {
      NamedStep(s, es[0]);
      NamedRun(DeleteStep(s, es[0]), es[1..]);
    }
  }

  /** So deletions asked from a worker that is gone for good are released, whatever their database
      is called. */
  lemma {:induction false} GoneWorkerReleasesDeletes(es: seq<Event<string>>, db: string, w: nat)
    requires IsDeleteRun(Begin(), es) && forall i :: 0 <= i < |es| && es[i].Open? ==> IsNamedKey(es[i].k)
    ensures var s := AfterDeletes(Begin(), es);
            var key := AckKey(db, w);
            (key in s.entries && key !in s.opening && w !in s.connected && w !in s.lost
             && (w in s.settling ==> s.settling[w] == {})) ==> s.entries[key].completed
  {
    hide AckKey, KeyWorker, IsNamedKey;
    NamedRun(Begin(), es);
    KeyWorkerIsWorker(db, w);
    GoneWorkerReleasesWaits(KeyWorker, es, AckKey(db, w));
  }

  /** A deletion in a nameless database is never released. */
  lemma {:induction false} NamelessDeleteHangs(w: nat)
    ensures var key := AckKey("", w);
            var es := [Connect(w), Open(key), Lookup(key), Disconnect(w), Snapshot(w)];
            && IsDeleteRun(Begin(), es)
            && var s := AfterDeletes(Begin(), es);
            && key in s.entries && !s.entries[key].completed && key !in s.opening && w !in s.connected && w !in s.lost
            && w in s.settling && s.settling[w] == {}
  {
    var key := AckKey("", w);
    var es := [Connect(w), Open(key), Lookup(key), Disconnect(w), Snapshot(w)];
    KeyWorkerIsWorker("", w);
    SuffixMatchesWorker("", w, w);
    hide AckKey, HasSuffix, KeyWorker, IsNamedKey;
    var s1 := DeleteStep(Begin(), es[0]);
    var s2 := DeleteStep(s1, es[1]);
    var s3 := DeleteStep(s2, es[2]);
    var s4 := DeleteStep(s3, es[3]);
    assert s4 == State(map[key := Entry(false, false)], {}, {}, {w}, map[]);
    assert OpenBySuffix(s4.entries, w) == {};
    var s5 := DeleteStep(s4, es[4]);
    var none: set<string> := {};
    assert none + OpenBySuffix(s4.entries, w) == none;
    assert s5.entries == s4.entries && s5.settling == map[w := none] && s5.lost == {};
    hide DeleteStep, Enabled;
    assert es[1..] == [es[1], es[2], es[3], es[4]] && es[1..][1..] == [es[2], es[3], es[4]];
    assert es[1..][1..][1..] == [es[3], es[4]] && [es[3], es[4]][1..] == [es[4]];
    assert IsDeleteRun(s4, [es[4]]) && AfterDeletes(s4, [es[4]]) == s5;
    assert IsDeleteRun(s3, [es[3], es[4]]) && AfterDeletes(s3, [es[3], es[4]]) == s5;
    assert IsDeleteRun(s2, es[1..][1..]) && AfterDeletes(s2, es[1..][1..]) == s5;
    assert IsDeleteRun(s1, es[1..]) && AfterDeletes(s1, es[1..]) == s5;
  }

  // ---------------------------------------------------------------------------
  // The code
  // ---------------------------------------------------------------------------

  datatype Merge = Merge(db: string, worker: nat, completed: bool, success: bool)

  class WaitTables {
    var mergeStates: map<nat, Merge>
    var deleteAcks: map<string, Entry>
    /** lookup_worker_conn finds a connection. */
    var connected: set<nat>

    constructor ()
      ensures mergeStates == map[] && deleteAcks == map[] && connected == {}
    {
      mergeStates, deleteAcks, connected := map[], map[], {};
    }

    /** send_merge_task: the worker is recorded when the wait is opened, not when it ends. */
    method SendMergeTask(taskId: nat, worker: nat, sourceDb: string) returns (sent: bool)
      requires taskId !in mergeStates
      modifies `mergeStates
      ensures sent == (worker in connected)
      ensures mergeStates == old(mergeStates)[taskId := Merge(sourceDb, worker, !sent, false)]
    {
      mergeStates := mergeStates[taskId := Merge(sourceDb, worker, false, false)];
      if worker !in connected {
        mergeStates := mergeStates[taskId := mergeStates[taskId].(completed := true, success := false)];
        return false;
      }
      return true;
    }

    /** send_delete_data: an entry that is already there is kept, unless the worker is gone. */
    method SendDeleteData(worker: nat, db: string) returns (sent: bool)
      modifies `deleteAcks
      ensures sent == (worker in connected)
      ensures !sent ==> deleteAcks == old(deleteAcks)[AckKey(db, worker) := Entry(true, false)]
      ensures sent && AckKey(db, worker) in old(deleteAcks) ==> deleteAcks == old(deleteAcks)
      ensures sent && AckKey(db, worker) !in old(deleteAcks) ==>
                deleteAcks == old(deleteAcks)[AckKey(db, worker) := Entry(false, false)]
    {
      var key := AckKey(db, worker);
      if key !in deleteAcks {
        deleteAcks := deleteAcks[key := Entry(false, false)];
      }
      if worker !in connected {
        deleteAcks := deleteAcks[key := Entry(false, false)];
        deleteAcks := deleteAcks[key := deleteAcks[key].(completed := true, success := false)];
        return false;
      }
      return true;
    }

    method OnDeleteAck(worker: nat, db: string, success: bool)
      modifies `deleteAcks
      ensures deleteAcks == Finished(old(deleteAcks), AckKey(db, worker), success)
      ensures AckKey(db, worker) in old(deleteAcks) ==>
                deleteAcks == old(deleteAcks)[AckKey(db, worker) := Entry(true, success)]
      ensures AckKey(db, worker) !in old(deleteAcks) ==> deleteAcks == old(deleteAcks)
    {
      var key := AckKey(db, worker);
      if key in deleteAcks {
        deleteAcks := deleteAcks[key := Entry(true, success)];
      }
    }

    /** Deletions of a dead worker: exactly its open entries are failed. */
    method SettleDeletes(worker: nat)
      modifies `deleteAcks
      ensures deleteAcks.Keys == old(deleteAcks).Keys
      ensures forall key :: key in deleteAcks ==>
                deleteAcks[key] == if HasSuffix(key, worker) && !old(deleteAcks)[key].completed then Entry(true, false)
                                   else old(deleteAcks)[key]
    {
      var keys := set key | key in deleteAcks && !deleteAcks[key].completed && HasSuffix(key, worker);
      var todo := keys;
      while todo != {}
        invariant todo <= keys && deleteAcks.Keys == old(deleteAcks).Keys
        invariant forall key :: key in deleteAcks ==>
                    deleteAcks[key] == if key in keys && key !in todo then Entry(true, false) else old(deleteAcks)[key]
        decreases |todo|
      {
        var key :| key in todo;
        if !deleteAcks[key].completed {
          deleteAcks := deleteAcks[key := Entry(true, false)];
        }
        todo := todo - {key};
      }
    }

    /** Merge tasks of a dead worker. */
    method SettleMerges(worker: nat)
      modifies `mergeStates
      ensures mergeStates.Keys == old(mergeStates).Keys
      ensures forall t :: t in mergeStates ==>
                mergeStates[t] == if old(mergeStates)[t].worker == worker && !old(mergeStates)[t].completed
                                  then old(mergeStates)[t].(completed := true, success := false)
                                  else old(mergeStates)[t]
    {
      var tids := set t | t in mergeStates && !mergeStates[t].completed && mergeStates[t].worker == worker;
      var todo := tids;
      while todo != {}
        invariant todo <= tids && mergeStates.Keys == old(mergeStates).Keys
        invariant forall t :: t in mergeStates ==>
                    mergeStates[t] == if t in tids && t !in todo
                                      then old(mergeStates)[t].(completed := true, success := false)
                                      else old(mergeStates)[t]
        decreases |todo|
      {
        var t :| t in todo;
        if !mergeStates[t].completed {
          mergeStates := mergeStates[t := mergeStates[t].(completed := true, success := false)];
        }
        todo := todo - {t};
      }
    }
  }
}

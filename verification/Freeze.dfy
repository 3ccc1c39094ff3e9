/**
 Freezing databases and write provenance (src/agent/cpp/master_agent.cpp).

 Every section under frozen_dbs_mutex_ or provenance_mutex_ is one step. A freeze first closes
 the database and later, in a section of its own, drops its provenance; a task's freeze is only
 pending until the task's outcome is known.
 */
module Freeze {
  import opened Common
  import opened ObjectNames

  type Hash = string
  type Task = nat

  // ---------------------------------------------------------------------------
  // State and steps
  // ---------------------------------------------------------------------------

  /** cleaned holds the databases whose provenance was dropped since they were frozen. */
  datatype State = State(frozen: set<Db>, pending: map<Db, Task>, prov: map<Db, map<Name, Hash>>, cleaned: set<Db>)

  /** A registration names its database and, separately, the full name of the object. */
  datatype Write = Write(db: Db, full: string, hash: Hash)

  datatype Answer = Accepted | Frozen | EmptyHash | Mismatch

  datatype Event =
    | Register(w: Write)
    | StreamFreeze(db: Db)
    | TaskFreeze(db: Db, t: Task)
    | MasterFreeze(db: Db)
    | Commit(t: Task)
    | Rollback(t: Task)
    | Cleanup(db: Db)
    | Erase(db: Db, name: Name)
    | Unfreeze(db: Db)          // after a merge

  predicate Closed(s: State, db: Db) { db in s.frozen || db in s.pending }

  function Known(s: State, db: Db): map<Name, Hash> {
    if db in s.prov then s.prov[db] else map[]
  }

  function AnswerTo(s: State, w: Write): Answer {
    if Closed(s, w.db) then Frozen
    else if w.hash == "" then EmptyHash
    else
      var (db, name) := SplitFullName(w.full);
      if name in Known(s, db) && Known(s, db)[name] != w.hash then Mismatch else Accepted
  }

  ghost function Registered(s: State, w: Write): State {
    var (db, name) := SplitFullName(w.full);
    if AnswerTo(s, w) == Accepted then s.(prov := s.prov[db := Known(s, db)[name := w.hash]]) else s
  }

  /** Databases whose freeze is pending under the task. */
  ghost function PendingUnder(s: State, t: Task): set<Db> {
    set db | db in s.pending && s.pending[db] == t
  }

  ghost function Erased(prov: map<Db, map<Name, Hash>>, db: Db, name: Name): map<Db, map<Name, Hash>> {
    if db !in prov then prov
    else if prov[db] - {name} == map[] then prov - {db}
    else prov[db := prov[db] - {name}]
  }

  ghost function Step(s: State, e: Event): State {
    match e
    case Register(w) => Registered(s, w)
    case StreamFreeze(db) => if Closed(s, db) then s else s.(frozen := s.frozen + {db})
    case TaskFreeze(db, t) => if Closed(s, db) then s else s.(pending := s.pending[db := t])
    case MasterFreeze(db) => s.(frozen := s.frozen + {db})
    case Commit(t) => s.(frozen := s.frozen + PendingUnder(s, t), pending := s.pending - PendingUnder(s, t))
    case Rollback(t) => s.(pending := s.pending - PendingUnder(s, t))
    case Cleanup(db) =>
      s.(prov := s.prov - {db}, cleaned := if db in s.frozen then s.cleaned + {db} else s.cleaned)
    case Erase(db, name) => s.(prov := Erased(s.prov, db, name))
    case Unfreeze(db) => s.(frozen := s.frozen - {db}, pending := s.pending - {db}, cleaned := s.cleaned - {db})
  }

  ghost function After(s: State, es: seq<Event>): State
    decreases |es|
  {
    if es == [] then s else After(Step(s, es[0]), es[1..])
  }

  ghost function Begin(): State { State({}, map[], map[], {}) }

  // ---------------------------------------------------------------------------
  // Freeze closes provenance
  // ---------------------------------------------------------------------------

  ghost predicate Sealed(s: State) {
    forall db :: db in s.cleaned ==> db in s.frozen && Known(s, db) == map[]
  }

  /** A registration leaves the provenance of frozen databases closed exactly when its object
      belongs to no cleaned one, or the database the message names is closed, or it has no hash. */
  lemma {:induction false} RegisterKeepsSealedIff(s: State, w: Write)
    requires Sealed(s)
    ensures Sealed(Registered(s, w)) <==>
            (SplitFullName(w.full).0 in s.cleaned ==> Closed(s, w.db) || w.hash == "")
  {
  }

  /** The object of the message belongs to the database of the message. */
  ghost predicate Consistent(e: Event) { e.Register? ==> SplitFullName(e.w.full).0 == e.w.db }

  lemma {:induction false} StepKeepsSealed(s: State, e: Event)
    requires Sealed(s) && Consistent(e)
    ensures Sealed(Step(s, e))
  {
  }

  /** In every interleaving: once a freeze's cleanup has run, the database's provenance stays
      empty for as long as it is frozen. */
  lemma {:induction false} FreezeClosesProvenance(s: State, es: seq<Event>)
    requires Sealed(s) && forall i :: 0 <= i < |es| ==> Consistent(es[i])
    ensures Sealed(After(s, es))
    decreases |es|
  {
    hide Sealed, Step, Consistent;
    if es != [] {
      StepKeepsSealed(s, es[0]);
      FreezeClosesProvenance(Step(s, es[0]), es[1..]);
    }
  }

  /** A frozen database that was cleaned stays so until it is unfrozen. */
  lemma {:induction false} StaysCleaned(s: State, es: seq<Event>, db: Db)
    requires db in s.cleaned && forall i :: 0 <= i < |es| ==> es[i] != Unfreeze(db)
    ensures db in After(s, es).cleaned
    decreases |es|
  {
    if es != [] {
      StaysCleaned(Step(s, es[0]), es[1..], db);
    }
  }

  /** A message that names one database and an object of another slips into a frozen one. */
  lemma {:induction false} InconsistentWriteSlipsIn()
    ensures var es := [MasterFreeze("d"), Cleanup("d"), Register(Write("e", "d:x", "h"))];
            "d" in After(Begin(), es).frozen && Known(After(Begin(), es), "d") != map[]
  {
    var es := [MasterFreeze("d"), Cleanup("d"), Register(Write("e", "d:x", "h"))];
    var s1 := Step(Begin(), es[0]);
    var s2 := Step(s1, es[1]);
    SplitOfFullName("d", "x");
    assert FullName("d", "x") == "d:x";
    assert AnswerTo(s2, es[2].w) == Accepted;
    var s3 := Step(s2, es[2]);
    assert "x" in Known(s3, "d");
    assert es[1..] == [Cleanup("d"), es[2]] && es[1..][1..] == [es[2]] && es[1..][1..][1..] == [];
    assert After(s2, [es[2]]) == s3;
    assert After(s1, es[1..]) == s3;
  }

  // ---------------------------------------------------------------------------
  // One hash per object
  // ---------------------------------------------------------------------------

  ghost predicate Holds(s: State, db: Db, name: Name, hash: Hash) {
    name in Known(s, db) && Known(s, db)[name] == hash
  }

  ghost predicate KeepsObject(e: Event, db: Db, name: Name) { e != Erase(db, name) && e != Cleanup(db) }

  lemma {:induction false} HashStays(s: State, es: seq<Event>, db: Db, name: Name, hash: Hash)
    requires Holds(s, db, name, hash) && forall i :: 0 <= i < |es| ==> KeepsObject(es[i], db, name)
    ensures Holds(After(s, es), db, name, hash)
    decreases |es|
  {
    if es != [] {
      var e := es[0];
      assert KeepsObject(e, db, name);
      assert Holds(Step(s, e), db, name, hash) by {
        if e.Erase? && e.db == db && db in s.prov {
          assert name in s.prov[db] - {e.name};
        }
      }
      HashStays(Step(s, e), es[1..], db, name, hash);
    }
  }

  /** Two accepted registrations of one object, with no erase of it in between, carry the same
      hash. */
  lemma {:induction false} SameHash(s: State, v: Write, es: seq<Event>, w: Write)
    requires SplitFullName(v.full) == SplitFullName(w.full)
    requires forall i :: 0 <= i < |es| ==> KeepsObject(es[i], SplitFullName(v.full).0, SplitFullName(v.full).1)
    requires AnswerTo(s, v) == Accepted
    requires AnswerTo(After(Registered(s, v), es), w) == Accepted
    ensures v.hash == w.hash
  {
    var (db, name) := SplitFullName(v.full);
    HashStays(Registered(s, v), es, db, name, v.hash);
  }

  /** The object is unknown, and every other object keeps its hash. */
  ghost predicate Forgets(s: State, s': State, db: Db, name: Name) {
    && name !in Known(s', db) && s'.frozen == s.frozen && s'.pending == s.pending
    && forall d, n, h :: d != db || n != name ==> (Holds(s', d, n, h) <==> Holds(s, d, n, h))
  }

  /** After an erase anyone may write the object again, with any hash, unless the database is closed. */
  lemma {:induction false} EraseForgets(s: State, db: Db, name: Name, w: Write)
    ensures var s' := Step(s, Erase(db, name));
            && Forgets(s, s', db, name)
            && (SplitFullName(w.full) == (db, name) ==>
                  AnswerTo(s', w) == if Closed(s, w.db) then Frozen else if w.hash == "" then EmptyHash else Accepted)
  {
    var s' := Step(s, Erase(db, name));
    forall n | n != name ensures n in Known(s', db) <==> n in Known(s, db) {
      if db in s.prov && n in s.prov[db] {
        assert n in s.prov[db] - {name};
      }
    }
  }

  // ---------------------------------------------------------------------------
  // A freeze holds
  // ---------------------------------------------------------------------------

  lemma {:induction false} StaysFrozen(s: State, es: seq<Event>, db: Db)
    requires db in s.frozen && Unfreeze(db) !in es
    ensures db in After(s, es).frozen
    decreases |es|
  {
    if es != [] {
      assert es[0] != Unfreeze(db);
      StaysFrozen(Step(s, es[0]), es[1..], db);
    }
  }

  ghost predicate AllConsistent(es: seq<Event>) { forall i :: 0 <= i < |es| ==> Consistent(es[i]) }

  /** From an accepted stream freeze, or a freeze by the master, until the database is unfrozen after
      a merge, every write to it is turned down, whatever happens; and once the cleanup has run, its
      provenance is empty. */
  lemma {:induction false} FreezeHolds(s: State, e: Event, es: seq<Event>, fs: seq<Event>, w: Write)
    requires (e.StreamFreeze? && !Closed(s, e.db)) || e.MasterFreeze?
    requires Sealed(s) && AllConsistent(es) && AllConsistent(fs) && Unfreeze(e.db) !in es + fs && w.db == e.db
    ensures var during := After(Step(s, e), es);
            && AnswerTo(during, w) == Frozen
            && var later := After(Step(during, Cleanup(e.db)), fs);
            && AnswerTo(later, w) == Frozen && Known(later, e.db) == map[]
  {
    var s1 := Step(s, e);
    assert forall x :: x in es ==> x in es + fs;
    assert forall x :: x in fs ==> x in es + fs;
    StaysFrozen(s1, es, e.db);
    StepKeepsSealed(s, e);
    FreezeClosesProvenance(s1, es);
    var during := After(s1, es);
    var s2 := Step(during, Cleanup(e.db));
    StepKeepsSealed(during, Cleanup(e.db));
    StaysFrozen(s2, fs, e.db);
    FreezeClosesProvenance(s2, fs);
    assert forall i :: 0 <= i < |fs| ==> fs[i] != Unfreeze(e.db);
    StaysCleaned(s2, fs, e.db);
  }

  /** Unfreezing reopens the database and nothing else. */
  lemma {:induction false} UnfreezeReopens(s: State, db: Db)
    ensures var s' := Step(s, Unfreeze(db));
            && !Closed(s', db) && s'.prov == s.prov && forall d :: d != db ==> (Closed(s', d) <==> Closed(s, d))
  {
  }

  // ---------------------------------------------------------------------------
  // Two-phase freeze
  // ---------------------------------------------------------------------------

  /** Steps other than the outcome of task t and the unfreezing of db. */
  ghost predicate Undecided(e: Event, db: Db, t: Task) {
    e != Commit(t) && e != Rollback(t) && e != Unfreeze(db)
  }

  lemma {:induction false} StaysPending(s: State, es: seq<Event>, db: Db, t: Task)
    requires db in s.pending && s.pending[db] == t
    requires forall i :: 0 <= i < |es| ==> Undecided(es[i], db, t)
    ensures db in After(s, es).pending && After(s, es).pending[db] == t
    decreases |es|
  {
    if es != [] {
      assert Undecided(es[0], db, t);
      StaysPending(Step(s, es[0]), es[1..], db, t);
    }
  }

  /** From an accepted task freeze until the task's outcome, every registration on the database
      is turned down, whatever the other tasks do. Afterwards nothing is pending under the task,
      and the database is frozen, or writable again unless someone else froze it. */
  lemma {:induction false} TwoPhaseFreeze(s: State, db: Db, t: Task, es: seq<Event>, w: Write)
    requires !Closed(s, db) && w.db == db
    requires forall i :: 0 <= i < |es| ==> Undecided(es[i], db, t)
    ensures var during := After(Step(s, TaskFreeze(db, t)), es);
            && AnswerTo(during, w) == Frozen
            && var done := Step(during, Commit(t));
            && db in done.frozen && PendingUnder(done, t) == {}
            && var back := Step(during, Rollback(t));
            && PendingUnder(back, t) == {} && (Closed(back, db) <==> db in during.frozen)
            && forall d :: d != db && d in during.pending && during.pending[d] != t ==>
                 d in done.pending && d in back.pending
  {
    StaysPending(Step(s, TaskFreeze(db, t)), es, db, t);
    var during := After(Step(s, TaskFreeze(db, t)), es);
    assert db in PendingUnder(during, t);
  }

  // ---------------------------------------------------------------------------
  // The code
  // ---------------------------------------------------------------------------

  lemma {:induction false} OneMoreFrozen(done: set<Db>, db: Db, base: set<Db>, m: map<Db, Task>)
    ensures db in base ==> base + done == base + (done + {db}) && (done + {db}) - base == done - base
    ensures db !in base && db !in done ==>
              db !in base + done && (done + {db}) - base == (done - base) + {db}
    ensures (m - done) - {db} == m - (done + {db})
  {
  }

  lemma {:induction false} OutcomeSteps(s: State, t: Task)
    ensures Step(s, Commit(t)) ==
            State(s.frozen + PendingUnder(s, t), s.pending - PendingUnder(s, t), s.prov, s.cleaned)
    ensures Step(s, Rollback(t)) == State(s.frozen, s.pending - PendingUnder(s, t), s.prov, s.cleaned)
  {
  }

  class FreezeTables {
    var frozenDbs: set<Db>
    var pendingFrozenDbs: map<Db, Task>
    var writeProvenance: map<Db, map<Name, Hash>>
    ghost var cleaned: set<Db>

    constructor ()
      ensures View() == Begin()
    {
      frozenDbs, pendingFrozenDbs, writeProvenance, cleaned := {}, map[], map[], {};
    }

    ghost function View(): State
      reads this
    {
      State(frozenDbs, pendingFrozenDbs, writeProvenance, cleaned)
    }

    /** First write wins; the same hash again is fine. */
    method CheckAndRegister(db: Db, name: Name, hash: Hash) returns (ok: bool)
      requires hash != ""
      modifies `writeProvenance
      ensures ok <==> !(name in Known(old(View()), db) && Known(old(View()), db)[name] != hash)
      ensures ok ==> writeProvenance == old(writeProvenance)[db := Known(old(View()), db)[name := hash]]
      ensures !ok ==> writeProvenance == old(writeProvenance)
    {
      var inner := if db in writeProvenance then writeProvenance[db] else map[];
      if name !in inner {
        writeProvenance := writeProvenance[db := inner[name := hash]];
        return true;
      }
      if inner[name] == hash {
        assert inner[name := hash] == inner && writeProvenance[db := inner] == writeProvenance;
        return true;
      }
      return false;
    }

    /** The deciding section of do_write_register. */
    method WriteRegister(w: Write) returns (answer: Answer)
      modifies this
      ensures answer == AnswerTo(old(View()), w) && View() == Registered(old(View()), w)
      ensures frozenDbs == old(frozenDbs) && pendingFrozenDbs == old(pendingFrozenDbs)
      ensures answer == Frozen <==> w.db in frozenDbs || w.db in pendingFrozenDbs
      ensures answer == EmptyHash <==> w.db !in frozenDbs && w.db !in pendingFrozenDbs && w.hash == ""
      ensures var (db, name) := SplitFullName(w.full);
              answer == Accepted <==>
              && w.db !in frozenDbs && w.db !in pendingFrozenDbs && w.hash != ""
              && (name in Known(old(View()), db) ==> Known(old(View()), db)[name] == w.hash)
      ensures answer != Accepted ==> writeProvenance == old(writeProvenance)
      ensures answer == Accepted ==> Holds(View(), SplitFullName(w.full).0, SplitFullName(w.full).1, w.hash)
    {
      if w.db in frozenDbs || w.db in pendingFrozenDbs {
        return Frozen;
      }
      if w.hash == "" {
        return EmptyHash;
      }
      var (db, name) := SplitFullName(w.full);
      var ok := CheckAndRegister(db, name, w.hash);
      return if ok then Accepted else Mismatch;
    }

    /** A worker's freeze request: confirmed at once in stream mode, pending otherwise. */
    method FreezeRequest(db: Db, t: Task, streaming: bool) returns (accepted: bool)
      modifies this
      ensures accepted == !Closed(old(View()), db)
      ensures View() == Step(old(View()), if streaming then StreamFreeze(db) else TaskFreeze(db, t))
      ensures writeProvenance == old(writeProvenance)
      ensures accepted && streaming ==>
                frozenDbs == old(frozenDbs) + {db} && pendingFrozenDbs == old(pendingFrozenDbs)
      ensures accepted && !streaming ==>
                frozenDbs == old(frozenDbs) && pendingFrozenDbs == old(pendingFrozenDbs)[db := t]
      ensures !accepted ==> frozenDbs == old(frozenDbs) && pendingFrozenDbs == old(pendingFrozenDbs)
    {
      if db in frozenDbs || db in pendingFrozenDbs {
        return false;
      }
      if streaming {
        frozenDbs := frozenDbs + {db};
      } else {
        pendingFrozenDbs := pendingFrozenDbs[db := t];
      }
      return true;
    }

    /** The section of on_master_freeze; a pending freeze does not stand in its way. */
    method FreezeByMaster(db: Db) returns (inserted: bool)
      modifies this
      ensures inserted == (db !in old(frozenDbs)) && View() == Step(old(View()), MasterFreeze(db))
      ensures frozenDbs == old(frozenDbs) + {db} && pendingFrozenDbs == old(pendingFrozenDbs)
    {
      if db in frozenDbs {
        return false;
      }
      frozenDbs := frozenDbs + {db};
      return true;
    }

    /** Confirm one pending freeze; those in done are confirmed already. */
    method ConfirmOne(db: Db, ghost base: set<Db>, ghost m: map<Db, Task>, ghost done: set<Db>) returns (inserted: bool)
      requires frozenDbs == base + done && pendingFrozenDbs == m - done && db !in done
      modifies `frozenDbs, `pendingFrozenDbs
      ensures frozenDbs == base + (done + {db}) && pendingFrozenDbs == m - (done + {db})
      ensures inserted == (db !in base)
    {
      inserted := db !in frozenDbs;
      if inserted {
        frozenDbs := frozenDbs + {db};
      }
      pendingFrozenDbs := pendingFrozenDbs - {db};
    }

    /** Confirm every freeze pending under the task, that is those in all. */
    method ConfirmAll(t: Task, ghost all: set<Db>) returns (committed: set<Db>)
      requires all <= pendingFrozenDbs.Keys
      requires forall db :: db in pendingFrozenDbs ==> (db in all <==> pendingFrozenDbs[db] == t)
      modifies `frozenDbs, `pendingFrozenDbs
      ensures frozenDbs == old(frozenDbs) + all && pendingFrozenDbs == old(pendingFrozenDbs) - all
      ensures committed == all - old(frozenDbs)
    {
      ghost var done := {};
      var todo := pendingFrozenDbs.Keys;
      committed := {};
      while todo != {}
        invariant todo <= old(pendingFrozenDbs).Keys && done == all - todo
        invariant frozenDbs == old(frozenDbs) + done && committed == done - old(frozenDbs)
        invariant pendingFrozenDbs == old(pendingFrozenDbs) - done
        decreases |todo|
      {
        var db :| db in todo;
        DoneStep(all, todo, done, db, old(frozenDbs));
        OneMoreFrozen(done, db, old(frozenDbs), old(pendingFrozenDbs));
        if pendingFrozenDbs[db] == t {
          var inserted := ConfirmOne(db, old(frozenDbs), old(pendingFrozenDbs), done);
          if inserted {
            committed := committed + {db};
          }
          done := done + {db};
        }
        todo := todo - {db};
      }
      assert done == all;
    }

    /** Task succeeded: its pending freezes are confirmed; newly frozen ones are returned. */
    method CommitPending(t: Task) returns (committed: set<Db>)
      modifies `frozenDbs, `pendingFrozenDbs
      ensures View() == Step(old(View()), Commit(t))
      ensures committed == PendingUnder(old(View()), t) - old(frozenDbs)
    {
      OutcomeSteps(View(), t);
      hide Step;
      committed := ConfirmAll(t, PendingUnder(View(), t));
    }

    /** Drop every freeze pending under the task, that is those in all. */
    method DropAll(t: Task, ghost all: set<Db>)
      requires all <= pendingFrozenDbs.Keys
      requires forall db :: db in pendingFrozenDbs ==> (db in all <==> pendingFrozenDbs[db] == t)
      modifies `pendingFrozenDbs
      ensures pendingFrozenDbs == old(pendingFrozenDbs) - all
    {
      ghost var done := {};
      var todo := pendingFrozenDbs.Keys;
      while todo != {}
        invariant todo <= old(pendingFrozenDbs).Keys && done == all - todo
        invariant pendingFrozenDbs == old(pendingFrozenDbs) - done
        decreases |todo|
      {
        var db :| db in todo;
        DoneStep(all, todo, done, db, {});
        OneMoreFrozen(done, db, {}, old(pendingFrozenDbs));
        if pendingFrozenDbs[db] == t {
          pendingFrozenDbs := pendingFrozenDbs - {db};
          done := done + {db};
        }
        todo := todo - {db};
      }
      assert done == all;
    }

    /** Task failed, died or exited: its pending freezes are dropped. */
    method RollbackPending(t: Task)
      modifies `pendingFrozenDbs
      ensures View() == Step(old(View()), Rollback(t))
    {
      OutcomeSteps(View(), t);
      hide Step;
      DropAll(t, PendingUnder(View(), t));
    }

    /** An emptied database entry is dropped. */
    method ProvenanceErase(db: Db, name: Name)
      modifies this
      ensures View() == Step(old(View()), Erase(db, name))
      ensures Forgets(old(View()), View(), db, name)
    {
      if db !in writeProvenance {
        return;
      }
      var inner := writeProvenance[db] - {name};
      writeProvenance := if inner == map[] then writeProvenance - {db} else writeProvenance[db := inner];
    }

    method CleanupProvenance(db: Db)
      modifies this
      ensures View() == Step(old(View()), Cleanup(db))
    {
      writeProvenance := writeProvenance - {db};
      if db in frozenDbs {
        cleaned := cleaned + {db};
      }
    }
  }
}

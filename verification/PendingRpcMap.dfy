/**
 The table of pending requests (src/agent/cpp/pending_rpc_map.h): a mutex, a condition
 variable and a map, shared by the threads that wait for an answer and those that bring it.

 The protocol is a step system. A waiter's "not done" test and its falling asleep are two
 steps with the mutex held in between, so that the window for a lost wake-up exists in the
 model; the class at the end holds the code itself.
 */
module PendingRpcMaps {
  import opened Common

  // ---------------------------------------------------------------------------
  // Steps
  // ---------------------------------------------------------------------------

  /** Where a thread inside wait_for stands: it found its entry not done and still holds the
      mutex, or it sleeps on the condition variable, with or without a notification pending. */
  datatype Wait<K> =
    | Checked(key: K, timed: bool, eraseOnTimeout: bool)
    | Asleep(key: K, timed: bool, eraseOnTimeout: bool, woken: bool)

  datatype State<K, P> = State(holder: Option<nat>, entries: map<K, P>, waits: map<nat, Wait<K>>)

  /** What a step hands back to the thread in wait_for. */
  datatype Outcome<P> = Silent | Null | Returned(entry: P)

  datatype Event<!K, !P> =
    | Emplace(key: K, entry: P)
    | Erase(key: K)
    | Complete(key: K, fill: P -> P)
    | CompleteAll(which: P -> bool, fill: P -> P)
    | Enter(t: nat, key: K, timed: bool, eraseOnTimeout: bool)
    | Sleep(t: nat)
    | Wake(t: nat)
    | Deadline(t: nat)

  ghost predicate WaitedOn<K, P>(s: State<K, P>, k: K) {
    exists t :: t in s.waits && s.waits[t].key == k
  }

  /** When a step can happen. Every section needs the free mutex except the one of its holder.
      The table's users keep one waiter per key, erase only keys nobody waits on, and never
      replace an awaited entry by a finished one. */
  ghost predicate Enabled<K, P>(done: P -> bool, s: State<K, P>, e: Event<K, P>) {
    match e
    case Emplace(k, p) => s.holder.None? && (WaitedOn(s, k) ==> !done(p))
    case Erase(k) => s.holder.None? && !WaitedOn(s, k)
    case Complete(_, _) => s.holder.None?
    case CompleteAll(_, _) => s.holder.None?
    case Enter(t, k, _, _) => s.holder.None? && t !in s.waits && !WaitedOn(s, k)
    case Sleep(t) => s.holder == Some(t) && t in s.waits && s.waits[t].Checked?
    case Wake(t) => s.holder.None? && t in s.waits && s.waits[t].Asleep? && s.waits[t].key in s.entries
    case Deadline(t) =>
      s.holder.None? && t in s.waits && s.waits[t].Asleep? && s.waits[t].timed && s.waits[t].key in s.entries
  }

  ghost function Notified<K>(waits: map<nat, Wait<K>>): (r: map<nat, Wait<K>>)
    ensures r.Keys == waits.Keys
    ensures forall t :: t in r ==> r[t] == if waits[t].Asleep? then waits[t].(woken := true) else waits[t]
  {
    map t | t in waits :: if waits[t].Asleep? then waits[t].(woken := true) else waits[t]
  }

  ghost function Filled<K, P>(entries: map<K, P>, which: P -> bool, fill: P -> P): (r: map<K, P>)
    ensures r.Keys == entries.Keys
    ensures forall k :: k in r ==> r[k] == if which(entries[k]) then fill(entries[k]) else entries[k]
  {
    map k | k in entries :: if which(entries[k]) then fill(entries[k]) else entries[k]
  }

  ghost function Completed<K, P>(entries: map<K, P>, k: K, fill: P -> P): map<K, P> {
    if k in entries then entries[k := fill(entries[k])] else entries
  }

  ghost function Step<K, P>(done: P -> bool, s: State<K, P>, e: Event<K, P>): (State<K, P>, Outcome<P>)
    requires Enabled(done, s, e)
  {
    match e
    case Emplace(k, p) => (s.(entries := s.entries[k := p]), Silent)
    case Erase(k) => (s.(entries := s.entries - {k}), Silent)
    case Complete(k, fill) => (s.(entries := Completed(s.entries, k, fill), waits := Notified(s.waits)), Silent)
    case CompleteAll(which, fill) =>
      (s.(entries := Filled(s.entries, which, fill), waits := Notified(s.waits)), Silent)
    case Enter(t, k, timed, eraseOnTimeout) =>
      if k !in s.entries then (s, Null)
      else if done(s.entries[k]) then (s, Returned(s.entries[k]))
      else (s.(holder := Some(t), waits := s.waits[t := Checked(k, timed, eraseOnTimeout)]), Silent)
    case Sleep(t) =>
      var w := s.waits[t];
      (s.(holder := None, waits := s.waits[t := Asleep(w.key, w.timed, w.eraseOnTimeout, false)]), Silent)
    case Wake(t) =>
      var w := s.waits[t];
      if done(s.entries[w.key]) then (s.(waits := s.waits - {t}), Returned(s.entries[w.key]))
      else (s.(holder := Some(t), waits := s.waits[t := Checked(w.key, w.timed, w.eraseOnTimeout)]), Silent)
    case Deadline(t) =>
      var w := s.waits[t];
      if done(s.entries[w.key]) then (s.(waits := s.waits - {t}), Returned(s.entries[w.key]))
      else
        (s.(waits := s.waits - {t}, entries := if w.eraseOnTimeout then s.entries - {w.key} else s.entries), Null)
  }

  // ---------------------------------------------------------------------------
  // Runs
  // ---------------------------------------------------------------------------

  ghost predicate IsRun<K, P>(done: P -> bool, s: State<K, P>, es: seq<Event<K, P>>)
    decreases |es|
  {
    es == [] || (Enabled(done, s, es[0]) && IsRun(done, Step(done, s, es[0]).0, es[1..]))
  }

  ghost function After<K, P>(done: P -> bool, s: State<K, P>, es: seq<Event<K, P>>): State<K, P>
    requires IsRun(done, s, es)
    decreases |es|
  {
    if es == [] then s else After(done, Step(done, s, es[0]).0, es[1..])
  }

  ghost function Begin<K, P>(): State<K, P> {
    State(None, map[], map[])
  }

  /** A sleeper whose entry is done has a notification pending. */
  ghost predicate NoLostWakeup<K, P>(done: P -> bool, s: State<K, P>) {
    forall t :: t in s.waits && s.waits[t].Asleep? && !s.waits[t].woken ==>
      s.waits[t].key in s.entries && !done(s.entries[s.waits[t].key])
  }

  ghost predicate OneWaiterPerKey<K, P>(s: State<K, P>) {
    forall t, u :: t in s.waits && u in s.waits && s.waits[t].key == s.waits[u].key ==> t == u
  }

  ghost predicate Inv<K, P>(done: P -> bool, s: State<K, P>) {
    && NoLostWakeup(done, s)
    && OneWaiterPerKey(s)
    && (forall t :: t in s.waits ==> s.waits[t].key in s.entries)
    && (forall t :: t in s.waits && s.waits[t].Checked? ==>
          s.holder == Some(t) && !done(s.entries[s.waits[t].key]))
    && (s.holder.Some? ==> s.holder.value in s.waits && s.waits[s.holder.value].Checked?)
  }

  lemma {:induction false} StepKeepsInv<K, P>(done: P -> bool, s: State<K, P>, e: Event<K, P>)
    requires Inv(done, s) && Enabled(done, s, e)
    ensures Inv(done, Step(done, s, e).0)
  {
    var s' := Step(done, s, e).0;
    match e
    case Emplace(k, p) =>
      forall t | t in s.waits && s.waits[t].key == k ensures !done(p) {
        assert WaitedOn(s, k);
      }
    case Enter(t, k, _, _) =>
      forall u | u in s.waits ensures s.waits[u].key != k {
        assert !WaitedOn(s, k);
      }
    case Erase(k) =>
      forall u | u in s.waits ensures s.waits[u].key != k {
        assert !WaitedOn(s, k);
      }
    case _ =>
  }

  lemma {:induction false} RunKeepsInv<K, P>(done: P -> bool, s: State<K, P>, es: seq<Event<K, P>>)
    requires Inv(done, s) && IsRun(done, s, es)
    ensures Inv(done, After(done, s, es))
    decreases |es|
  {
    hide Inv, Enabled, Step;
    if es != [] {
      StepKeepsInv(done, s, es[0]);
      RunKeepsInv(done, Step(done, s, es[0]).0, es[1..]);
    }
  }

  /** No reachable state has a waiter asleep, no notification pending, and its entry done. */
  lemma {:induction false} NoLostWakeupEver<K, P>(done: P -> bool, es: seq<Event<K, P>>)
    requires IsRun(done, Begin(), es)
    ensures NoLostWakeup(done, After(done, Begin(), es))
    ensures OneWaiterPerKey(After(done, Begin(), es))
  {
    RunKeepsInv(done, Begin(), es);
  }

  /** In every reachable state the mutex is free or its holder can go on to sleep, and a sleeper
      always finds its entry still in the map. */
  lemma {:induction false} NeverStuck<K, P>(done: P -> bool, es: seq<Event<K, P>>, t: nat)
    requires IsRun(done, Begin(), es) && t in After(done, Begin(), es).waits
    ensures var s := After(done, Begin(), es);
            && (s.holder.Some? ==> Enabled(done, s, Sleep(s.holder.value)))
            && (s.holder.None? ==> s.waits[t].Asleep? && Enabled(done, s, Wake(t)))
            && (s.holder.None? && s.waits[t].timed ==> Enabled(done, s, Deadline(t)))
  {
    RunKeepsInv(done, Begin(), es);
  }

  /** A waiter gets back either its done entry or, on a timed wait, null while the entry is not
      done. The only other null is a key that was never there. */
  lemma {:induction false} OutcomeIsTruthful<K, P>(done: P -> bool, s: State<K, P>, e: Event<K, P>)
    requires Inv(done, s) && Enabled(done, s, e)
    ensures var (s', out) := Step(done, s, e);
            && (out.Returned? ==> done(out.entry) && (e.Enter? || e.Wake? || e.Deadline?))
            && (out.Null? ==> ((e.Enter? && e.key !in s.entries)
                               || (e.Deadline? && s.waits[e.t].timed && !done(s.entries[s.waits[e.t].key]))))
            && (e.Enter? && e.key in s.entries && done(s.entries[e.key]) ==>
                  out == Returned(s.entries[e.key]) && s' == s)
            && (e.Enter? && e.key !in s.entries ==> out.Null? && s' == s)
            && (e.Wake? && done(s.entries[s.waits[e.t].key]) ==>
                  out == Returned(s.entries[s.waits[e.t].key]) && e.t !in s'.waits && s'.entries == s.entries)
            && (e.Deadline? && done(s.entries[s.waits[e.t].key]) ==>
                  out == Returned(s.entries[s.waits[e.t].key]) && s'.entries == s.entries)
            && (e.Deadline? ==> e.t !in s'.waits)
            && (out.Null? && e.Deadline? ==> (s.waits[e.t].key in s'.entries <==> !s.waits[e.t].eraseOnTimeout))
  {
  }

  /** Events that leave an entry and its waiter alone. */
  ghost predicate Elsewhere<K, P>(e: Event<K, P>, t: nat, k: K, entry: P) {
    match e
    case Emplace(k', _) => k' != k
    case Erase(k') => k' != k
    case Complete(k', fill) => k' == k ==> fill(entry) == entry
    case CompleteAll(which, fill) => which(entry) ==> fill(entry) == entry
    case Enter(u, _, _, _) => u != t
    case Sleep(u) => u != t
    case Wake(u) => u != t
    case Deadline(u) => u != t
  }

  ghost predicate AllElsewhere<K, P>(es: seq<Event<K, P>>, t: nat, k: K, entry: P) {
    forall i :: 0 <= i < |es| ==> Elsewhere(es[i], t, k, entry)
  }

  ghost predicate Deliverable<K, P>(done: P -> bool, s: State<K, P>, t: nat, k: K, entry: P) {
    && Inv(done, s) && t in s.waits && s.waits[t].Asleep? && s.waits[t].key == k
    && k in s.entries && s.entries[k] == entry && done(entry)
  }

  lemma {:induction false} StaysDeliverable<K, P>(done: P -> bool, s: State<K, P>, e: Event<K, P>, t: nat, k: K,
                                                  entry: P)
    requires Deliverable(done, s, t, k, entry) && Enabled(done, s, e) && Elsewhere(e, t, k, entry)
    ensures Deliverable(done, Step(done, s, e).0, t, k, entry)
  {
    StepKeepsInv(done, s, e);
  }

  /** Once an answer has been filled in under a sleeping waiter, whatever the other threads do,
      the waiter has a wake-up pending, and resuming returns that answer. */
  lemma {:induction false} AnswerIsDelivered<K, P>(
      done: P -> bool, s: State<K, P>, es: seq<Event<K, P>>, t: nat, k: K, entry: P)
    requires Deliverable(done, s, t, k, entry) && IsRun(done, s, es) && AllElsewhere(es, t, k, entry)
    ensures var s' := After(done, s, es);
            && t in s'.waits && s'.waits[t].Asleep? && s'.waits[t].woken
            && (s'.holder.None? ==>
                  Enabled(done, s', Wake(t)) && Step(done, s', Wake(t)).1 == Returned(entry))
    decreases |es|
  {
    if es != [] {
      hide Inv, Enabled, Step, Elsewhere;
      StaysDeliverable(done, s, es[0], t, k, entry);
      AnswerIsDelivered(done, Step(done, s, es[0]).0, es[1..], t, k, entry);
    }
  }

  // ---------------------------------------------------------------------------
  // Why completion holds the mutex
  // ---------------------------------------------------------------------------

  /** Filling an entry in and notifying without the mutex. */
  ghost function UnlockedComplete<K, P>(s: State<K, P>, k: K, fill: P -> P): State<K, P> {
    s.(entries := Completed(s.entries, k, fill), waits := Notified(s.waits))
  }

  ghost predicate AboutToSleepOn<K, P>(s: State<K, P>, k: K) {
    exists t :: t in s.waits && s.waits[t].Checked? && s.waits[t].key == k
  }

  /** An unlocked completion is harmless exactly when it does not finish an entry whose waiter
      has just tested it and is about to fall asleep. */
  lemma {:induction false} UnlockedCompleteHarmlessIff<K, P>(done: P -> bool, s: State<K, P>, k: K, fill: P -> P)
    requires Inv(done, s) && k in s.entries
    ensures Inv(done, UnlockedComplete(s, k, fill)) <==> (AboutToSleepOn(s, k) ==> !done(fill(s.entries[k])))
  {
  }

  /** In that window the notification is lost: the waiter sleeps on a done entry. */
  lemma {:induction false} UnlockedCompleteLosesWakeup<K, P>(done: P -> bool, s: State<K, P>, t: nat, k: K,
                                                             fill: P -> P)
    requires Inv(done, s) && t in s.waits && s.waits[t].Checked? && s.waits[t].key == k
    requires done(fill(s.entries[k]))
    ensures Enabled(done, UnlockedComplete(s, k, fill), Sleep(t))
    ensures !NoLostWakeup(done, Step(done, UnlockedComplete(s, k, fill), Sleep(t)).0)
  {
    var s1 := UnlockedComplete(s, k, fill);
    assert s1.waits[t] == s.waits[t];
    var s2 := Step(done, s1, Sleep(t)).0;
    assert s2.waits[t].Asleep? && !s2.waits[t].woken && done(s2.entries[k]);
  }

  // ---------------------------------------------------------------------------
  // The code
  // ---------------------------------------------------------------------------

  /** What a waiter finds when it gets the mutex back: the map as the other threads left it,
      and whether the deadline has passed. */
  datatype Wakeup<K, P> = Wakeup(entries: map<K, P>, timeout: bool)

  datatype WaitResult<P> = Absent | TimedOut | Found(entry: P) | StillAsleep

  class PendingRpcMap<K(==), P> {
    var entries: map<K, P>

    constructor ()
      ensures entries == map[]
    {
      entries := map[];
    }

    method EmplaceEntry(key: K, p: P) returns (r: P)
      modifies this
      ensures entries == old(entries)[key := p] && r == p
    {
      entries := entries[key := p];
      r := p;
    }

    /** An entry that is already there, finished or not, wins over the new one. */
    method InsertIfAbsent(key: K, p: P) returns (r: P, inserted: bool)
      modifies this
      ensures inserted <==> key !in old(entries)
      ensures inserted ==> entries == old(entries)[key := p] && r == p
      ensures !inserted ==> entries == old(entries) && r == entries[key]
    {
      if key in entries {
        return entries[key], false;
      }
      entries := entries[key := p];
      return p, true;
    }

    method EraseEntry(key: K)
      modifies this
      ensures entries == old(entries) - {key}
    {
      entries := entries - {key};
    }

    method CompleteEntry(key: K, fill: P -> P)
      modifies this
      ensures entries == Completed(old(entries), key, fill)
      ensures key in old(entries) ==> entries == old(entries)[key := fill(old(entries)[key])]
      ensures key !in old(entries) ==> entries == old(entries)
    {
      if key in entries {
        entries := entries[key := fill(entries[key])];
      }
    }

    method CompleteAllIf(which: P -> bool, fill: P -> P)
      modifies this
      ensures entries == Filled(old(entries), which, fill)
    {
      var todo := entries.Keys;
      while todo != {}
        invariant entries.Keys == old(entries).Keys && todo <= entries.Keys
        invariant forall k :: k in todo ==> entries[k] == old(entries)[k]
        invariant forall k :: k in entries && k !in todo ==> entries[k] == Filled(old(entries), which, fill)[k]
        decreases |todo|
      {
        var k :| k in todo;
        if which(entries[k]) {
          entries := entries[k := fill(entries[k])];
        }
        todo := todo - {k};
      }
    }

    /** The wait loop, driven by the wake-ups it gets. A timed wait treats a wake-up past the
        deadline as the last one; an unlimited wait never sees a timeout. */
    method WaitFor(key: K, timed: bool, done: P -> bool, eraseOnTimeout: bool, wakeups: seq<Wakeup<K, P>>)
      returns (r: WaitResult<P>, used: nat)
      requires forall i :: 0 <= i < |wakeups| ==> key in wakeups[i].entries
      modifies this
      ensures used <= |wakeups|
      ensures r.Absent? <==> key !in old(entries)
      ensures key in old(entries) && done(old(entries)[key]) ==>
                r == Found(old(entries)[key]) && used == 0 && entries == old(entries)
      ensures key in old(entries) && !done(old(entries)[key]) ==> r.StillAsleep? || used > 0
      ensures forall i :: 0 <= i < used - 1 ==> !done(wakeups[i].entries[key]) && !(timed && wakeups[i].timeout)
      ensures r.Found? ==> done(r.entry) && key in entries && entries[key] == r.entry
      ensures r.Found? ==> entries == (if used == 0 then old(entries) else wakeups[used - 1].entries)
      ensures r.TimedOut? ==>
                && timed && used > 0 && wakeups[used - 1].timeout && !done(wakeups[used - 1].entries[key])
                && entries == wakeups[used - 1].entries - (if eraseOnTimeout then {key} else {})
      ensures r.StillAsleep? ==>
                && used == |wakeups| && key in old(entries) && !done(old(entries)[key])
                && entries == (if used == 0 then old(entries) else wakeups[used - 1].entries)
                && forall i :: 0 <= i < used ==> !done(wakeups[i].entries[key]) && !(timed && wakeups[i].timeout)
      ensures r.Absent? ==> used == 0 && entries == old(entries)
    {
      used := 0;
      if key !in entries {
        return Absent, 0;
      }
      while !done(entries[key])
        invariant used <= |wakeups| && key in entries && key in old(entries)
        invariant used > 0 ==> !done(old(entries)[key])
        invariant entries == if used == 0 then old(entries) else wakeups[used - 1].entries
        invariant forall i :: 0 <= i < used - 1 ==> !done(wakeups[i].entries[key])
        invariant forall i :: 0 <= i < used ==> !(timed && wakeups[i].timeout)
        decreases |wakeups| - used
      {
        if used == |wakeups| {
          return StillAsleep, used;
        }
        entries := wakeups[used].entries;
        used := used + 1;
        if timed && wakeups[used - 1].timeout {
          if !done(entries[key]) {
            if eraseOnTimeout {
              entries := entries - {key};
            }
            return TimedOut, used;
          }
          break;
        }
      }
      r := Found(entries[key]);
    }
  }
}

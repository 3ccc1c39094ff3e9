/**
 Which connection speaks for which worker (src/agent/cpp/master_agent.cpp): registration with a
 liveness probe, deferral and replay, disconnects, deadlines.

 REGISTER, PROBE_ACK and DISCONNECT are handled one after the other, so each handler is one
 step; connections die on their own in between, and once even inside a handler, between the
 probe and the re-check.
 */
module WorkerIdentity {
  import opened Common

  type Conn = nat
  type Worker = nat

  /** A registration put on hold until the old connection is known to be alive or dead. */
  datatype Deferred = Deferred(conn: Conn, deadline: int)

  datatype Ack = Ack(conn: Conn, worker: Worker, duplicate: bool)

  /** dead: closed at transport level; handled: DISCONNECT was processed; probeFailed: a probe
      could not be sent. confirmed is the time of the last answered probe. */
  datatype Ident = Ident(connToWorker: map<Conn, Worker>, workerToConn: map<Worker, Conn>,
                         deferred: map<Worker, Deferred>, confirmed: map<Worker, int>,
                         dead: set<Conn>, handled: set<Conn>, probeFailed: set<Conn>, acks: seq<Ack>)

  const CONFIRMED_SECONDS := 30
  const DEFER_SECONDS := 15

  // ---------------------------------------------------------------------------
  // Handlers
  // ---------------------------------------------------------------------------

  /** Another connection that holds the worker's id. */
  function Existing(s: Ident, conn: Conn, w: Worker): Option<Conn> {
    if w in s.workerToConn && s.workerToConn[w] != conn then Some(s.workerToConn[w]) else None
  }

  function Accept(s: Ident, conn: Conn, w: Worker): Ident {
    s.(connToWorker := s.connToWorker[conn := w], workerToConn := s.workerToConn[w := conn],
       acks := s.acks + [Ack(conn, w, false)])
  }

  /** The deferred registration, if any, is turned down. */
  function RejectDeferred(s: Ident, w: Worker): Ident {
    if w in s.deferred then s.(deferred := s.deferred - {w}, acks := s.acks + [Ack(s.deferred[w].conn, w, true)])
    else s
  }

  /** Forget the dead connection c of worker w. */
  function Forget(s: Ident, c: Conn, w: Worker): Ident {
    s.(probeFailed := s.probeFailed + {c},
       workerToConn := if w in s.workerToConn && s.workerToConn[w] == c then s.workerToConn - {w} else s.workerToConn,
       connToWorker := if c in s.connToWorker && s.connToWorker[c] == w then s.connToWorker - {c} else s.connToWorker)
  }

  /** on_worker_register. dies: the old connection dies between the probe and the re-check. The
      recursion through replay ends because the old connection is dead the second time. */
  function Register(s: Ident, conn: Conn, w: Worker, now: int, dies: bool): Ident
    decreases if w in s.workerToConn && s.workerToConn[w] !in s.dead then 1 else 0
  {
    match Existing(s, conn, w)
    case None => Accept(s, conn, w)
    case Some(c) =>
      if w in s.confirmed && now - s.confirmed[w] < CONFIRMED_SECONDS then
        RejectDeferred(s.(acks := s.acks + [Ack(conn, w, true)]), w)
      else if c in s.dead then Accept(Forget(s, c, w), conn, w)
      else
        var s1 := s.(deferred := s.deferred[w := Deferred(conn, now + DEFER_SECONDS)],
                     dead := if dies then s.dead + {c} else s.dead);
        if c in s1.dead then Register(s1.(deferred := s1.deferred - {w}), conn, w, now, false) else s1
  }

  function Replay(s: Ident, w: Worker, now: int, dies: bool): Ident {
    if w in s.deferred then Register(s.(deferred := s.deferred - {w}), s.deferred[w].conn, w, now, dies) else s
  }

  function OnDisconnect(s: Ident, c: Conn, now: int, dies: bool): Ident {
    var s0 := s.(handled := s.handled + {c}, dead := s.dead + {c});
    if c !in s.connToWorker then s0
    else
      var w := s.connToWorker[c];
      var s1 := s0.(connToWorker := s.connToWorker - {c}, confirmed := s.confirmed - {w},
                    workerToConn := if w in s.workerToConn && s.workerToConn[w] == c
                                    then s.workerToConn - {w} else s.workerToConn);
      Replay(s1, w, now, dies)
  }

  function OnProbeAck(s: Ident, w: Worker, now: int): Ident {
    RejectDeferred(s.(confirmed := s.confirmed[w := now]), w)
  }

  // ---------------------------------------------------------------------------
  // Runs
  // ---------------------------------------------------------------------------

  datatype Event =
    | Registers(conn: Conn, now: int, dies: bool)
    | Disconnects(conn: Conn, now: int, dies: bool)
    | ProbeAnswered(w: Worker, now: int)
    | Expires(w: Worker, now: int)
    | Dies(conn: Conn)

  /** Every connection belongs to one worker process, whose id is idOf. */
  ghost function Step(idOf: Conn -> Worker, s: Ident, e: Event): Ident {
    match e
    case Registers(conn, now, dies) => Register(s, conn, idOf(conn), now, dies)
    case Disconnects(conn, now, dies) => OnDisconnect(s, conn, now, dies)
    case ProbeAnswered(w, now) => OnProbeAck(s, w, now)
    case Expires(w, now) => if w in s.deferred && now >= s.deferred[w].deadline then RejectDeferred(s, w) else s
    case Dies(conn) => s.(dead := s.dead + {conn})
  }

  ghost function After(idOf: Conn -> Worker, s: Ident, es: seq<Event>): Ident
    decreases |es|
  {
    if es == [] then s else After(idOf, Step(idOf, s, es[0]), es[1..])
  }

  ghost function Begin(): Ident { Ident(map[], map[], map[], map[], {}, {}, {}, []) }

  // ---------------------------------------------------------------------------
  // One connection per worker id
  // ---------------------------------------------------------------------------

  ghost predicate Inverse(s: Ident) {
    && (forall c :: c in s.connToWorker ==>
          s.connToWorker[c] in s.workerToConn && s.workerToConn[s.connToWorker[c]] == c)
    && (forall w :: w in s.workerToConn ==>
          s.workerToConn[w] in s.connToWorker && s.connToWorker[s.workerToConn[w]] == w)
  }

  ghost predicate Inv(idOf: Conn -> Worker, s: Ident) {
    && Inverse(s)
    && (forall c :: c in s.connToWorker ==> s.connToWorker[c] == idOf(c))
    && (forall w :: w in s.deferred ==> idOf(s.deferred[w].conn) == w)
  }

  /** Accepting a registration keeps the tables inverse exactly when the connection does not
      already speak for another worker. */
  lemma {:induction false} AcceptKeepsInverseIff(s: Ident, conn: Conn, w: Worker)
    requires Inverse(s) && Existing(s, conn, w).None?
    ensures Inverse(Accept(s, conn, w)) <==> (conn in s.connToWorker ==> s.connToWorker[conn] == w)
  {
    var s' := Accept(s, conn, w);
    if conn in s.connToWorker && s.connToWorker[conn] != w {
      var v := s.connToWorker[conn];
      assert v in s'.workerToConn && s'.workerToConn[v] == conn;
    }
  }

  lemma {:induction false} ForgetKeeps(idOf: Conn -> Worker, s: Ident, c: Conn, w: Worker)
    requires Inv(idOf, s) && w in s.workerToConn && s.workerToConn[w] == c
    ensures Inv(idOf, Forget(s, c, w)) && w !in Forget(s, c, w).workerToConn
  {
  }

  lemma {:induction false} RegisterKeeps(idOf: Conn -> Worker, s: Ident, conn: Conn, w: Worker, now: int, dies: bool)
    requires Inv(idOf, s) && idOf(conn) == w
    ensures Inv(idOf, Register(s, conn, w, now, dies))
    decreases if w in s.workerToConn && s.workerToConn[w] !in s.dead then 1 else 0
  {
    match Existing(s, conn, w)
    case None => AcceptKeepsInverseIff(s, conn, w);
    case Some(c) =>
      if w in s.confirmed && now - s.confirmed[w] < CONFIRMED_SECONDS {
      } else if c in s.dead {
        ForgetKeeps(idOf, s, c, w);
        AcceptKeepsInverseIff(Forget(s, c, w), conn, w);
      } else if dies {
        var s1 := s.(deferred := s.deferred[w := Deferred(conn, now + DEFER_SECONDS)], dead := s.dead + {c});
        var s2 := s1.(deferred := s1.deferred - {w});
        RegisterKeeps(idOf, s2, conn, w, now, false);
      }
  }

  lemma {:induction false} DisconnectKeeps(idOf: Conn -> Worker, s: Ident, c: Conn, now: int, dies: bool)
    requires Inv(idOf, s)
    ensures Inv(idOf, OnDisconnect(s, c, now, dies))
  {
    hide Register;
    if c in s.connToWorker {
      var w := s.connToWorker[c];
      var s1 := s.(handled := s.handled + {c}, dead := s.dead + {c}, connToWorker := s.connToWorker - {c},
                   confirmed := s.confirmed - {w}, workerToConn := s.workerToConn - {w});
      assert Inv(idOf, s1);
      if w in s1.deferred {
        RegisterKeeps(idOf, s1.(deferred := s1.deferred - {w}), s1.deferred[w].conn, w, now, dies);
      }
    }
  }

  lemma {:induction false} StepKeeps(idOf: Conn -> Worker, s: Ident, e: Event)
    requires Inv(idOf, s)
    ensures Inv(idOf, Step(idOf, s, e))
  {
    match e
    case Registers(conn, now, dies) => RegisterKeeps(idOf, s, conn, idOf(conn), now, dies);
    case Disconnects(conn, now, dies) => DisconnectKeeps(idOf, s, conn, now, dies);
    case _ =>
  }

  /** The two tables are inverse to each other in every run. */
  lemma {:induction false} RunKeepsInverse(idOf: Conn -> Worker, s: Ident, es: seq<Event>)
    requires Inv(idOf, s)
    ensures Inv(idOf, After(idOf, s, es))
    decreases |es|
  {
    hide Inv, Step;
    if es != [] {
      StepKeeps(idOf, s, es[0]);
      RunKeepsInverse(idOf, Step(idOf, s, es[0]), es[1..]);
    }
  }

  lemma {:induction false} OneConnectionPerWorker(idOf: Conn -> Worker, es: seq<Event>)
    ensures Inverse(After(idOf, Begin(), es))
  {
    RunKeepsInverse(idOf, Begin(), es);
  }

  // ---------------------------------------------------------------------------
  // When an id moves
  // ---------------------------------------------------------------------------

  /** Reasons to take an id away from a connection. */
  ghost predicate Released(s: Ident, c: Conn) { c in s.handled || c in s.probeFailed }

  /** Reasons are never forgotten. */
  ghost predicate Grows(s: Ident, s': Ident) {
    s.handled <= s'.handled && s.probeFailed <= s'.probeFailed && s.dead <= s'.dead
  }

  lemma {:induction false} RegisterMoves(s: Ident, conn: Conn, v: Worker, now: int, dies: bool, w: Worker, c: Conn)
    requires w in s.workerToConn && s.workerToConn[w] == c
    ensures var s' := Register(s, conn, v, now, dies);
            Grows(s, s') && ((w in s'.workerToConn && s'.workerToConn[w] == c) || Released(s', c))
    decreases if v in s.workerToConn && s.workerToConn[v] !in s.dead then 1 else 0
  {
  }

  lemma {:induction false} RegisterGrows(s: Ident, conn: Conn, v: Worker, now: int, dies: bool)
    ensures Grows(s, Register(s, conn, v, now, dies))
    decreases if v in s.workerToConn && s.workerToConn[v] !in s.dead then 1 else 0
  {
  }

  lemma {:induction false} StepMoves(idOf: Conn -> Worker, s: Ident, e: Event, w: Worker, c: Conn)
    requires w in s.workerToConn && s.workerToConn[w] == c
    ensures var s' := Step(idOf, s, e);
            Grows(s, s') && ((w in s'.workerToConn && s'.workerToConn[w] == c) || Released(s', c))
  {
    hide Register;
    match e
    case Registers(conn, now, dies) => RegisterMoves(s, conn, idOf(conn), now, dies, w, c);
    case Disconnects(conn, now, dies) =>
      if conn in s.connToWorker {
        var v := s.connToWorker[conn];
        var s1 := s.(handled := s.handled + {conn}, dead := s.dead + {conn}, connToWorker := s.connToWorker - {conn},
                     confirmed := s.confirmed - {v},
                     workerToConn := if v in s.workerToConn && s.workerToConn[v] == conn
                                     then s.workerToConn - {v} else s.workerToConn);
        if v in s1.deferred {
          var s2 := s1.(deferred := s1.deferred - {v});
          RegisterGrows(s2, s1.deferred[v].conn, v, now, dies);
          if w in s2.workerToConn {
            RegisterMoves(s2, s1.deferred[v].conn, v, now, dies, w, c);
          }
        }
      }
    case _ =>
  }

  lemma {:induction false} StepGrows(idOf: Conn -> Worker, s: Ident, e: Event)
    ensures Grows(s, Step(idOf, s, e))
  {
    hide Register;
    match e
    case Registers(conn, now, dies) => RegisterGrows(s, conn, idOf(conn), now, dies);
    case Disconnects(conn, now, dies) =>
      if conn in s.connToWorker {
        var v := s.connToWorker[conn];
        var s1 := s.(handled := s.handled + {conn}, dead := s.dead + {conn}, connToWorker := s.connToWorker - {conn},
                     confirmed := s.confirmed - {v},
                     workerToConn := if v in s.workerToConn && s.workerToConn[v] == conn
                                     then s.workerToConn - {v} else s.workerToConn);
        if v in s1.deferred {
          RegisterGrows(s1.(deferred := s1.deferred - {v}), s1.deferred[v].conn, v, now, dies);
        }
      }
    case _ =>
  }

  lemma {:induction false} StaysReleased(idOf: Conn -> Worker, s: Ident, es: seq<Event>, c: Conn)
    requires Released(s, c)
    ensures Released(After(idOf, s, es), c)
    decreases |es|
  {
    hide Step;
    if es != [] {
      StepGrows(idOf, s, es[0]);
      StaysReleased(idOf, Step(idOf, s, es[0]), es[1..], c);
    }
  }

  /** An id leaves a connection only after its disconnect was processed or a probe on it failed. */
  lemma {:induction false} IdMovesOnlyWhenReleased(idOf: Conn -> Worker, s: Ident, es: seq<Event>, w: Worker, c: Conn)
    requires w in s.workerToConn && s.workerToConn[w] == c
    ensures var s' := After(idOf, s, es); (w in s'.workerToConn && s'.workerToConn[w] == c) || Released(s', c)
    decreases |es|
  {
    hide Step, Released;
    if es != [] {
      var s1 := Step(idOf, s, es[0]);
      StepMoves(idOf, s, es[0], w, c);
      if w in s1.workerToConn && s1.workerToConn[w] == c {
        IdMovesOnlyWhenReleased(idOf, s1, es[1..], w, c);
      } else {
        StaysReleased(idOf, s1, es[1..], c);
      }
    }
  }

  /** A late disconnect of a connection that no longer holds an id leaves all ids where they are. */
  lemma {:induction false} LateDisconnectIsHarmless(s: Ident, c: Conn, now: int, dies: bool)
    requires Inverse(s) && forall w :: w in s.workerToConn ==> s.workerToConn[w] != c
    ensures var s' := OnDisconnect(s, c, now, dies);
            && s'.workerToConn == s.workerToConn && s'.connToWorker == s.connToWorker
            && s'.deferred == s.deferred && s'.acks == s.acks
  {
  }

  /** A connection whose worker answered the last probe less than 30 seconds ago keeps the id; the
      newcomer is told it is a duplicate, and so is a registration still on hold. */
  lemma {:induction false} ConfirmedKeepsId(s: Ident, conn: Conn, w: Worker, now: int, dies: bool)
    requires Existing(s, conn, w).Some? && w in s.confirmed && now - s.confirmed[w] < CONFIRMED_SECONDS
    ensures var s' := Register(s, conn, w, now, dies);
            && s'.workerToConn == s.workerToConn && s'.connToWorker == s.connToWorker && w !in s'.deferred
            && Ack(conn, w, true) in s'.acks && Ack(conn, w, false) !in s'.acks[|s.acks|..]
  {
  }

  ghost predicate RecentlyConfirmed(s: Ident, w: Worker, now: int) {
    w in s.confirmed && now - s.confirmed[w] < CONFIRMED_SECONDS
  }

  /** The registration of w on conn is accepted: the id moves there, one ack is sent, and no other
      worker is touched. */
  ghost predicate IsAccepted(s: Ident, s': Ident, conn: Conn, w: Worker) {
    && s'.workerToConn == s.workerToConn[w := conn] && conn in s'.connToWorker && s'.connToWorker[conn] == w
    && s'.acks == s.acks + [Ack(conn, w, false)] && s'.confirmed == s.confirmed
    && (forall v :: v != w ==> (v in s'.deferred <==> v in s.deferred))
    && (forall v :: v != w && v in s.deferred ==> s'.deferred[v] == s.deferred[v])
    && (forall c :: c != conn && c in s'.connToWorker ==>
          c in s.connToWorker && s'.connToWorker[c] == s.connToWorker[c])
    && (forall c :: c in s.connToWorker && s.connToWorker[c] != w ==> c in s'.connToWorker)
  }

  /** Which answer a registration gets. Nobody else holds the id: accepted. The holder was confirmed
      lately: turned down. Otherwise the holder is probed: accepted if it is dead or dies meanwhile,
      and then the holder has lost the id; put on hold if it lives. */
  lemma {:induction false} RegisterDecides(s: Ident, conn: Conn, w: Worker, now: int, dies: bool)
    ensures var s', holder := Register(s, conn, w, now, dies), Existing(s, conn, w);
            if holder.None? then IsAccepted(s, s', conn, w)
            else if RecentlyConfirmed(s, w, now) then
              && s'.workerToConn == s.workerToConn && s'.connToWorker == s.connToWorker && w !in s'.deferred
              && s'.acks == s.acks + [Ack(conn, w, true)]
                            + if w in s.deferred then [Ack(s.deferred[w].conn, w, true)] else []
            else if holder.value in s.dead || dies then
              && IsAccepted(s, s', conn, w)
              && (holder.value in s'.connToWorker ==> s'.connToWorker[holder.value] != w)
            else
              && s' == s.(deferred := s.deferred[w := Deferred(conn, now + DEFER_SECONDS)])
  {
    var holder := Existing(s, conn, w);
    if holder.Some? && !RecentlyConfirmed(s, w, now) && holder.value !in s.dead && dies {
      var s1 := s.(deferred := s.deferred - {w}, dead := s.dead + {holder.value});
      assert s.deferred[w := Deferred(conn, now + DEFER_SECONDS)] - {w} == s.deferred - {w};
      assert Register(s, conn, w, now, dies) == Register(s1, conn, w, now, false);
    }
  }

  /** An answered probe confirms the holder; a registration on hold is told it is a duplicate. */
  lemma {:induction false} ProbeAckConfirms(s: Ident, w: Worker, now: int)
    ensures var s' := OnProbeAck(s, w, now);
            && s'.confirmed == s.confirmed[w := now] && s'.deferred == s.deferred - {w}
            && s'.workerToConn == s.workerToConn && s'.connToWorker == s.connToWorker
            && s'.acks == s.acks + if w in s.deferred then [Ack(s.deferred[w].conn, w, true)] else []
  {
  }

  /** A registration on hold is turned down once its deadline has come, and not before. */
  lemma {:induction false} DeadlineRejects(idOf: Conn -> Worker, s: Ident, w: Worker, now: int)
    requires w in s.deferred
    ensures var s' := Step(idOf, s, Expires(w, now));
            if now < s.deferred[w].deadline then s' == s
            else s' == s.(deferred := s.deferred - {w}, acks := s.acks + [Ack(s.deferred[w].conn, w, true)])
  {
  }

  /** A processed disconnect takes the id from its connection and the confirmation from its worker;
      a registration on hold is then decided afresh. */
  lemma {:induction false} DisconnectReleases(s: Ident, c: Conn, now: int, dies: bool)
    requires Inverse(s) && c in s.connToWorker
    ensures var s', w := OnDisconnect(s, c, now, dies), s.connToWorker[c];
            && c in s'.handled && w !in s'.confirmed && w !in s'.deferred
            && (w in s.deferred ==> w in s'.workerToConn && s'.workerToConn[w] == s.deferred[w].conn
                                    && s'.acks == s.acks + [Ack(s.deferred[w].conn, w, false)])
            && (w !in s.deferred ==>
                  w !in s'.workerToConn && s'.connToWorker == s.connToWorker - {c} && s'.acks == s.acks)
  {
  }

  /** Whatever happens in the handler, a registration is accepted, turned down or put on hold. */
  lemma {:induction false} RegisterIsAnswered(s: Ident, conn: Conn, w: Worker, now: int, dies: bool)
    ensures var s' := Register(s, conn, w, now, dies);
            || (w in s'.workerToConn && s'.workerToConn[w] == conn && Ack(conn, w, false) in s'.acks)
            || Ack(conn, w, true) in s'.acks
            || (w in s'.deferred && s'.deferred[w] == Deferred(conn, now + DEFER_SECONDS))
    decreases if w in s.workerToConn && s.workerToConn[w] !in s.dead then 1 else 0
  {
  }

  /** A deferred registration is replayed even if its own connection has gone meanwhile: after the
      old connection's disconnect the id sits on a live connection exactly when that of the
      deferred registration is not among those whose disconnect was processed. */
  lemma {:induction false} ReplayMayBindGone(s: Ident, c: Conn, now: int, dies: bool)
    requires Inverse(s) && c in s.connToWorker && s.connToWorker[c] in s.deferred
    ensures var w := s.connToWorker[c];
            var d := s.deferred[w].conn;
            var s' := OnDisconnect(s, c, now, dies);
            && w in s'.workerToConn && s'.workerToConn[w] == d
            && (d in s'.handled <==> d == c || d in s.handled)
  {
  }

  /** Such a state is reached when the newcomer gives up before the old connection does. */
  lemma {:induction false} GoneConnectionHoldsId(w: Worker)
    ensures var es := [Registers(1, 0, false), Registers(2, 1, false),
                       Disconnects(2, 2, false), Disconnects(1, 3, false)];
            var s := After(_ => w, Begin(), es);
            w in s.workerToConn && s.workerToConn[w] == 2 && 2 in s.handled
  {
  }

  // ---------------------------------------------------------------------------
  // The code
  // ---------------------------------------------------------------------------

  class Registry {
    var connToWorker: map<Conn, Worker>
    var workerToConn: map<Worker, Conn>
    var deferredRegisters: map<Worker, Deferred>
    var dupConfirmedAlive: map<Worker, int>
    var acks: seq<Ack>
    /** The transport: connections that are closed. */
    var dead: set<Conn>
    ghost var handled: set<Conn>
    ghost var probeFailed: set<Conn>

    constructor ()
      ensures View() == Begin()
    {
      connToWorker, workerToConn, deferredRegisters := map[], map[], map[];
      dupConfirmedAlive, acks, dead := map[], [], {};
      handled, probeFailed := {}, {};
    }

    ghost function View(): Ident
      reads this
    {
      Ident(connToWorker, workerToConn, deferredRegisters, dupConfirmedAlive, dead, handled, probeFailed, acks)
    }

    method Reject(w: Worker)
      modifies this
      ensures View() == RejectDeferred(old(View()), w)
    {
      if w in deferredRegisters {
        var dr := deferredRegisters[w];
        deferredRegisters := deferredRegisters - {w};
        acks := acks + [Ack(dr.conn, w, true)];
      }
    }

    method OnWorkerRegister(conn: Conn, w: Worker, now: int, dies: bool)
      modifies this
      ensures View() == Register(old(View()), conn, w, now, dies)
      decreases if w in workerToConn && workerToConn[w] !in dead then 1 else 0, 0
    {
      if w in workerToConn && workerToConn[w] != conn {
        var existing := workerToConn[w];
        if w in dupConfirmedAlive && now - dupConfirmedAlive[w] < CONFIRMED_SECONDS {
          acks := acks + [Ack(conn, w, true)];
          Reject(w);
          return;
        }
        if existing in dead {
          probeFailed := probeFailed + {existing};
          if w in workerToConn && workerToConn[w] == existing {
            workerToConn := workerToConn - {w};
          }
          if existing in connToWorker && connToWorker[existing] == w {
            connToWorker := connToWorker - {existing};
          }
        } else {
          deferredRegisters := deferredRegisters[w := Deferred(conn, now + DEFER_SECONDS)];
          if dies {
            dead := dead + {existing};
          }
          if existing in dead {
            ReplayDeferred(w, now, false);
          }
          return;
        }
      }
      connToWorker := connToWorker[conn := w];
      workerToConn := workerToConn[w := conn];
      acks := acks + [Ack(conn, w, false)];
    }

    method ReplayDeferred(w: Worker, now: int, dies: bool)
      modifies this
      ensures View() == Replay(old(View()), w, now, dies)
      decreases if w in workerToConn && workerToConn[w] !in dead then 1 else 0, 1
    {
      if w in deferredRegisters {
        var dr := deferredRegisters[w];
        deferredRegisters := deferredRegisters - {w};
        OnWorkerRegister(dr.conn, w, now, dies);
      }
    }

    method HandleDisconnect(conn: Conn, now: int, dies: bool)
      modifies this
      ensures View() == OnDisconnect(old(View()), conn, now, dies)
    {
      handled, dead := handled + {conn}, dead + {conn};
      if conn !in connToWorker {
        return;
      }
      var w := connToWorker[conn];
      connToWorker := connToWorker - {conn};
      if w in workerToConn && workerToConn[w] == conn {
        workerToConn := workerToConn - {w};
      }
      dupConfirmedAlive := dupConfirmedAlive - {w};
      ReplayDeferred(w, now, dies);
    }

    method HandleProbeAck(w: Worker, now: int)
      modifies this
      ensures View() == OnProbeAck(old(View()), w, now)
      ensures dupConfirmedAlive == old(dupConfirmedAlive)[w := now] && deferredRegisters == old(deferredRegisters) - {w}
      ensures acks == old(acks)
                      + if w in old(deferredRegisters) then [Ack(old(deferredRegisters)[w].conn, w, true)] else []
    {
      dupConfirmedAlive := dupConfirmedAlive[w := now];
      Reject(w);
    }

    /** Registrations on hold for too long are turned down; the others stay. */
    method CheckDeadlines(now: int)
      modifies this
      ensures connToWorker == old(connToWorker) && workerToConn == old(workerToConn)
      ensures deferredRegisters == map w | w in old(deferredRegisters) && now < old(deferredRegisters)[w].deadline
                                         :: old(deferredRegisters)[w]
      ensures forall w :: w in old(deferredRegisters) && now >= old(deferredRegisters)[w].deadline ==>
                Ack(old(deferredRegisters)[w].conn, w, true) in acks
    {
      var expired := set w | w in deferredRegisters && now >= deferredRegisters[w].deadline;
      var todo := expired;
      while todo != {}
        modifies this
        invariant todo <= expired && connToWorker == old(connToWorker) && workerToConn == old(workerToConn)
        invariant deferredRegisters == old(deferredRegisters) - (expired - todo)
        invariant forall w :: w in expired - todo ==> Ack(old(deferredRegisters)[w].conn, w, true) in acks
        decreases |todo|
      {
        var w :| w in todo;
        Reject(w);
        assert acks[|acks| - 1] == Ack(old(deferredRegisters)[w].conn, w, true);
        todo := todo - {w};
      }
      assert forall w :: w in old(deferredRegisters) - expired <==>
               w in old(deferredRegisters) && now < old(deferredRegisters)[w].deadline;
    }
  }
}

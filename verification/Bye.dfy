/**
 Orderly shutdown of a worker connection (src/agent/cpp/peer_rpc_server.cpp): the BYE handshake.

 Each end has a network thread, which handles arriving BYEs and the final DISCONNECT event, and
 possibly a thread inside send_bye. Both work on three sets of connection ids under one mutex;
 every mutex section is a step. The connection delivers messages in order, and everything sent
 before an end closes arrives before the other end's DISCONNECT, unless the link fails.
 */
module Bye {

  /** Membership of one connection in bye_pending_conns_, bye_ack_conns_ and bye_closed_conns_. */
  datatype Flags = Flags(pending: bool, ack: bool, closed: bool)

  /** The thread inside send_bye. */
  datatype Caller = Idle | Marked | Waiting | Woken | Closing

  /** The network thread inside handle_bye: client means this end's own BYE was outstanding. */
  datatype Net = Listening | GotBye(client: bool) | Acknowledged

  /** One end. open: it has not closed the connection; inbox: BYEs on their way to it;
      disconnected: its DISCONNECT event was handled, calling the disconnect handler or not. */
  datatype End = End(flags: Flags, caller: Caller, net: Net, open: bool, inbox: nat,
                     disconnected: bool, handlerCalled: bool,
                     sentBye: bool, sentAck: bool, handledBye: bool)

  datatype State = State(ends: seq<End>, link: bool)

  type Side = e: nat | e < 2

  function Other(e: Side): Side { 1 - e }

  datatype Event =
    | BeginBye(e: Side)     // insert into pending
    | SendBye(e: Side)
    | StopWaiting(e: Side)  // acknowledged, disconnected, or five seconds are over
    | MarkClosed(e: Side)
    | CloseAfterBye(e: Side)
    | Receive(e: Side)      // handle_bye: was this end waiting for an acknowledgement?
    | NoteAck(e: Side)
    | SendAck(e: Side)
    | CloseAfterAck(e: Side)
    | Disconnect(e: Side)
    | LinkFails

  ghost predicate Valid(s: State) { |s.ends| == 2 }

  ghost predicate Enabled(s: State, ev: Event)
    requires Valid(s)
  {
    match ev
    case BeginBye(e) => s.ends[e].caller.Idle?
    case SendBye(e) => s.ends[e].caller.Marked?
    case StopWaiting(e) => s.ends[e].caller.Waiting?
    case MarkClosed(e) => s.ends[e].caller.Woken?
    case CloseAfterBye(e) => s.ends[e].caller.Closing?
    case Receive(e) => s.ends[e].net.Listening? && s.ends[e].inbox > 0 && !s.ends[e].disconnected
    case NoteAck(e) => s.ends[e].net == GotBye(true)
    case SendAck(e) => s.ends[e].net == GotBye(false)
    case CloseAfterAck(e) => s.ends[e].net.Acknowledged?
    case Disconnect(e) =>
      && s.ends[e].net.Listening? && !s.ends[e].disconnected
      && (!s.link || !s.ends[e].open || (!s.ends[Other(e)].open && s.ends[e].inbox == 0))
    case LinkFails => s.link
  }

  /** A BYE goes out if this end is still connected. */
  ghost function Sent(s: State, e: Side): State
    requires Valid(s)
  {
    if s.link && s.ends[e].open then
      s.(ends := s.ends[Other(e) := s.ends[Other(e)].(inbox := s.ends[Other(e)].inbox + 1)])
    else s
  }

  ghost function With(s: State, e: Side, end: End): State
    requires Valid(s)
  {
    s.(ends := s.ends[e := end])
  }

  ghost function Step(s: State, ev: Event): (s': State)
    requires Valid(s) && Enabled(s, ev)
    ensures Valid(s')
  {
    if ev.LinkFails? then s.(link := false)
    else
      var me := s.ends[ev.e];
      match ev
      case BeginBye(e) => With(s, e, me.(caller := Marked, flags := me.flags.(pending := true)))
      case SendBye(e) => With(Sent(s, e), e, me.(caller := Waiting, sentBye := true))
      case StopWaiting(e) => With(s, e, me.(caller := Woken, flags := me.flags.(pending := false, ack := false)))
      case MarkClosed(e) => With(s, e, me.(caller := Closing, flags := me.flags.(closed := true)))
      case CloseAfterBye(e) => With(s, e, me.(caller := Idle, open := false))
      case Receive(e) =>
        With(s, e, me.(net := GotBye(me.flags.pending), inbox := me.inbox - 1, flags := me.flags.(pending := false)))
      case NoteAck(e) =>
        With(s, e, me.(net := Listening, handledBye := true, flags := me.flags.(ack := true, closed := true)))
      case SendAck(e) =>
        With(Sent(s, e), e, me.(net := Acknowledged, sentAck := true, flags := me.flags.(closed := true)))
      case CloseAfterAck(e) => With(s, e, me.(net := Listening, open := false, handledBye := true))
      case Disconnect(e) =>
        With(s, e, me.(disconnected := true, handlerCalled := !me.flags.closed,
                       flags := me.flags.(pending := false, closed := false)))
  }

  ghost function Begin(): State {
    var start := End(Flags(false, false, false), Idle, Listening, true, 0, false, false, false, false, false);
    State([start, start], true)
  }

  ghost predicate IsRun(s: State, evs: seq<Event>)
    requires Valid(s)
    decreases |evs|
  {
    evs == [] || (Enabled(s, evs[0]) && IsRun(Step(s, evs[0]), evs[1..]))
  }

  ghost function After(s: State, evs: seq<Event>): (s': State)
    requires Valid(s) && IsRun(s, evs)
    ensures Valid(s')
    decreases |evs|
  {
    if evs == [] then s else After(Step(s, evs[0]), evs[1..])
  }

  // ---------------------------------------------------------------------------
  // What every interleaving keeps
  // ---------------------------------------------------------------------------

  /** Marks of one end. A handled BYE leaves its mark until DISCONNECT consumes it; a mark is
      only set by an end that sent or received a BYE, and always before that end closes. */
  ghost predicate EndInv(me: End) {
    && (me.handledBye || me.net.Acknowledged? ==>
          !me.handlerCalled && (me.flags.closed || me.disconnected))
    && (me.disconnected ==> me.net.Listening?)
    && (me.handlerCalled ==> me.disconnected)
    && (me.flags.closed ==> me.sentBye || me.sentAck || me.handledBye)
    && (me.caller.Waiting? || me.caller.Woken? || me.caller.Closing? ==> me.sentBye)
    && (me.net.Acknowledged? ==> me.sentAck)
    && (!me.disconnected && (me.caller.Closing? || !me.open) ==> me.flags.closed)
    && (!me.open ==> me.sentBye || me.sentAck)
    && (me.disconnected && !me.handlerCalled ==> me.sentBye || me.sentAck || me.handledBye)
  }

  ghost predicate Inv(s: State) {
    Valid(s) && EndInv(s.ends[0]) && EndInv(s.ends[1])
  }

  /** A step of the thread in send_bye. */
  ghost predicate ByCaller(ev: Event) {
    ev.BeginBye? || ev.SendBye? || ev.StopWaiting? || ev.MarkClosed? || ev.CloseAfterBye?
  }

  lemma {:induction false} CallerKeepsInv(s: State, ev: Event)
    requires Inv(s) && Enabled(s, ev) && ByCaller(ev)
    ensures Inv(Step(s, ev))
  {
  }

  lemma {:induction false} NetworkKeepsInv(s: State, ev: Event)
    requires Inv(s) && Enabled(s, ev) && !ByCaller(ev)
    ensures Inv(Step(s, ev))
  {
  }

  lemma {:induction false} StepKeepsInv(s: State, ev: Event)
    requires Inv(s) && Enabled(s, ev)
    ensures Inv(Step(s, ev))
  {
    hide EndInv, Enabled, Step, ByCaller;
    if ByCaller(ev) {
      CallerKeepsInv(s, ev);
    } else {
      NetworkKeepsInv(s, ev);
    }
  }

  lemma {:induction false} RunKeepsInv(s: State, evs: seq<Event>)
    requires Inv(s) && IsRun(s, evs)
    ensures Inv(After(s, evs))
    decreases |evs|
  {
    hide Enabled, EndInv, Step;
    if evs != [] {
      StepKeepsInv(s, evs[0]);
      RunKeepsInv(Step(s, evs[0]), evs[1..]);
    }
  }

  /** An end that has handled the peer's BYE or acknowledgement never calls the disconnect
      handler, link failures and simultaneous BYEs included. */
  lemma {:induction false} HandledByeIsSilent(evs: seq<Event>, e: Side)
    requires IsRun(Begin(), evs)
    ensures var me := After(Begin(), evs).ends[e]; me.handledBye ==> !me.handlerCalled
  {
    RunKeepsInv(Begin(), evs);
  }

  /** An end that sent no BYE and handled none always calls it at DISCONNECT. */
  lemma {:induction false} NoByeIsReported(evs: seq<Event>, e: Side)
    requires IsRun(Begin(), evs)
    ensures var me := After(Begin(), evs).ends[e];
            me.disconnected && !me.sentBye && !me.sentAck && !me.handledBye ==> me.handlerCalled
  {
    RunKeepsInv(Begin(), evs);
  }

  // ---------------------------------------------------------------------------
  // Without a link failure
  // ---------------------------------------------------------------------------

  /** A closed peer's BYE is on its way, being handled, or has been handled. */
  ghost predicate Announced(me: End, peer: End) {
    !peer.open ==> me.inbox > 0 || !me.net.Listening? || me.handledBye || me.disconnected
  }

  /** Once an end that is still open has sent a BYE or an acknowledgement, it is on its way,
      being handled, or has been handled. */
  ghost predicate Delivered(me: End, peer: End) {
    peer.open && (peer.sentBye || peer.sentAck) ==>
      me.inbox > 0 || !me.net.Listening? || me.handledBye || me.disconnected
  }

  ghost predicate Quiet(s: State) {
    Inv(s) && NobodyCalled(s)
  }

  lemma {:induction false} StepStaysQuiet(s: State, ev: Event)
    requires Quiet(s) && Enabled(s, ev) && !ev.LinkFails?
    ensures Quiet(Step(s, ev))
  {
    StepKeepsInv(s, ev);
    hide Enabled, Step, EndInv;
    if ByCaller(ev) {
      CallerStaysQuiet(s, ev);
    } else {
      NetworkStaysQuiet(s, ev);
    }
  }

  ghost predicate NobodyCalled(s: State)
    requires Valid(s)
  {
    && s.link
    && Announced(s.ends[0], s.ends[1]) && Announced(s.ends[1], s.ends[0])
    && Delivered(s.ends[0], s.ends[1]) && Delivered(s.ends[1], s.ends[0])
    && !s.ends[0].handlerCalled && !s.ends[1].handlerCalled
  }

  lemma {:induction false} CallerStaysQuiet(s: State, ev: Event)
    requires Quiet(s) && Enabled(s, ev) && ByCaller(ev)
    ensures NobodyCalled(Step(s, ev))
  {
  }

  lemma {:induction false} NetworkStaysQuiet(s: State, ev: Event)
    requires Quiet(s) && Enabled(s, ev) && !ByCaller(ev) && !ev.LinkFails?
    ensures NobodyCalled(Step(s, ev))
  {
  }

  /** As long as the link holds, no interleaving of byes, acknowledgements and timeouts ever
      makes an end take the orderly shutdown for a failure. */
  lemma {:induction false} NoSpuriousDisconnect(s: State, evs: seq<Event>)
    requires Quiet(s) && IsRun(s, evs) && LinkFails !in evs
    ensures Quiet(After(s, evs))
    decreases |evs|
  {
    hide Enabled, Step, Quiet;
    if evs != [] {
      QuietIsValid(s);
      StepStaysQuiet(s, evs[0]);
      NoSpuriousDisconnect(Step(s, evs[0]), evs[1..]);
    }
  }

  lemma {:induction false} QuietIsValid(s: State)
    requires Quiet(s)
    ensures Valid(s)
  {
  }

  /** From the start: the disconnect handler is called at an end only if the link failed. */
  lemma {:induction false} HandlerMeansLinkFailure(evs: seq<Event>, e: Side)
    requires IsRun(Begin(), evs)
    ensures After(Begin(), evs).ends[e].handlerCalled ==> LinkFails in evs
  {
    if LinkFails !in evs {
      NoSpuriousDisconnect(Begin(), evs);
    }
  }

  // ---------------------------------------------------------------------------
  // The code: three sets of connection ids
  // ---------------------------------------------------------------------------

  class ByeTable {
    var byePending: set<nat>
    var byeAck: set<nat>
    var byeClosed: set<nat>

    constructor ()
      ensures forall c :: FlagsOf(c) == Flags(false, false, false)
    {
      byePending, byeAck, byeClosed := {}, {}, {};
    }

    ghost function FlagsOf(conn: nat): Flags
      reads this
    {
      Flags(conn in byePending, conn in byeAck, conn in byeClosed)
    }

    /** First section of send_bye. */
    method Begin(conn: nat)
      modifies this
      ensures FlagsOf(conn) == old(FlagsOf(conn)).(pending := true)
      ensures forall c :: c != conn ==> FlagsOf(c) == old(FlagsOf(c))
    {
      byePending := byePending + {conn};
    }

    /** The section in which send_bye stops waiting. */
    method StopWaiting(conn: nat) returns (gotAck: bool)
      modifies this
      ensures gotAck == old(FlagsOf(conn)).ack
      ensures FlagsOf(conn) == old(FlagsOf(conn)).(pending := false, ack := false)
      ensures forall c :: c != conn ==> FlagsOf(c) == old(FlagsOf(c))
    {
      gotAck := conn in byeAck;
      byeAck := byeAck - {conn};
      byePending := byePending - {conn};
    }

    method MarkClosed(conn: nat)
      modifies this
      ensures FlagsOf(conn) == old(FlagsOf(conn)).(closed := true)
      ensures forall c :: c != conn ==> FlagsOf(c) == old(FlagsOf(c))
    {
      byeClosed := byeClosed + {conn};
    }

    /** First section of handle_bye. */
    method TakePending(conn: nat) returns (isClientBye: bool)
      modifies this
      ensures isClientBye == old(FlagsOf(conn)).pending
      ensures FlagsOf(conn) == old(FlagsOf(conn)).(pending := false)
      ensures forall c :: c != conn ==> FlagsOf(c) == old(FlagsOf(c))
    {
      isClientBye := conn in byePending;
      byePending := byePending - {conn};
    }

    method NoteAck(conn: nat)
      modifies this
      ensures FlagsOf(conn) == old(FlagsOf(conn)).(ack := true, closed := true)
      ensures forall c :: c != conn ==> FlagsOf(c) == old(FlagsOf(c))
    {
      byeAck := byeAck + {conn};
      byeClosed := byeClosed + {conn};
    }

    /** The DISCONNECT section: the handler is called unless the connection said BYE. */
    method OnDisconnect(conn: nat) returns (callHandler: bool)
      modifies this
      ensures callHandler == !old(FlagsOf(conn)).closed
      ensures FlagsOf(conn) == old(FlagsOf(conn)).(pending := false, closed := false)
      ensures forall c :: c != conn ==> FlagsOf(c) == old(FlagsOf(c))
    {
      callHandler := conn !in byeClosed;
      byeClosed := byeClosed - {conn};
      byePending := byePending - {conn};
    }
  }
}

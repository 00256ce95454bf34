/** What is handed to the wires and by which wire it leaves: nothing lost,
    repeated, reordered or altered between noq and a wire (`State`'s outbound
    queues and the pump's flush loops in endpoint/src/endpoint_impl.rs). */
module RuntimeQueues {
  import opened Types
  import opened Routing
  import opened Wakeups
  import opened Runtime
  import opened RuntimeSafety
  import R = RelayPool
  import G = Signaling
  import C = Connections

  // ----- what a step offers the wires -----

  datatype Kind = RelayQueue | UdpQueue | ChannelQueue

  /** A packet and the wire it is to leave by. */
  datatype Load =
    | ForRelay(key: nat, peer: EndpointId, packet: Packet)
    | ForUdp(remote: SocketAddr, packet: Packet)
    | ForChannel(id: nat, packet: Packet)

  function KindOf(l: Load): Kind {
    match l case ForRelay(_, _, _) => RelayQueue case ForUdp(_, _) => UdpQueue case ForChannel(_, _) => ChannelQueue
  }

  /** A datagram for `a` is to leave by the wire `a` is routed to, the relay's
      being told the standin's owner; unrouted, by UDP to `a` itself. */
  function LoadFor(r: Routes, a: SocketAddr, contents: seq<byte>): Load {
    if a in r.routes && r.routes[a].Channel? then ForChannel(r.routes[a].id, Quic(a, contents))
    else if a in r.routes && a in r.addrToPeer then ForRelay(r.routes[a].key, r.addrToPeer[a], Quic(a, contents))
    else ForUdp(a, Quic(a, contents))
  }

  function TransmitsOf(r: Routes, outs: seq<NoqOutput>): seq<Load> {
    if outs == [] then []
    else
      var out := outs[|outs| - 1];
      TransmitsOf(r, outs[..|outs| - 1]) + if out.Transmit? then [LoadFor(r, out.destination, out.contents)] else []
  }

  function AnswerTo(s: System, r: Routes, addr: SocketAddr, v: Verdict): seq<Load> {
    match Response(s.owners.conns, s.relays.closed, v)
    case Some(contents) => [LoadFor(r, addr, contents)]
    case None => []
  }

  /** noq answers a datagram with what it was to answer at once; with its refusal
      when an open endpoint's backlog is full; or with what a failed accept says. */
  lemma AnswersExactly(c: C.Conns, closed: bool, v: Verdict, contents: seq<byte>)
    ensures Response(c, closed, v) == Some(contents) <==>
      || v == Respond(contents)
      || (v.NewConnection? && !closed && C.AcceptBacklog(c) >= 16 && v.refusal == contents)
      || (v.NewConnection? && !closed && C.AcceptBacklog(c) < 16 && v.failure == Some(Some(contents)))
  {
    hide C.AcceptBacklog;
  }

  /** What a step offers the wires, from what noq and the sessions hand over and
      the routes of that moment. A signal goes by its own session's relay. */
  function Offers(s: System, e: Event): seq<Load>
    requires Enabled(s, e)
  {
    match e
    case Flush(Turn(outs)) => TransmitsOf(s.routes, outs)
    case Task(Publish(id, payload)) =>
      var session := s.sessions.live[id];
      [ForRelay(session.relay, session.peer, Signal(session.peer, payload))]
    case Select(UdpReady(remote, v)) => AnswerTo(s, s.routes, remote, v)
    case Select(RelayReady(key, _, GotDatagram(source, v), _, _)) =>
      var (r, addr) := AddrForPeer(s.routes, source, key);
      AnswerTo(s, r, addr, v)
    case Select(ChannelReady(id, ChannelDatagram(v))) =>
      if id in s.routes.channels then
        var (r, addr) := AddrForPeer(s.routes, s.routes.channels[id].peer, s.routes.channels[id].fallbackRelay);
        AnswerTo(s, r, addr, v)
      else []
    case _ => []
  }

  // ----- the queues as loads -----

  function Queue(r: Routes, kind: Kind): seq<Load> {
    match kind
    case RelayQueue =>
      seq(|r.relayOutbound|, i requires 0 <= i < |r.relayOutbound| =>
            ForRelay(r.relayOutbound[i].key, r.relayOutbound[i].peer, r.relayOutbound[i].packet))
    case UdpQueue =>
      seq(|r.udpOutbound|, i requires 0 <= i < |r.udpOutbound| => ForUdp(r.udpOutbound[i].remote, r.udpOutbound[i].packet))
    case ChannelQueue =>
      seq(|r.channelOutbound|, i requires 0 <= i < |r.channelOutbound| =>
            ForChannel(r.channelOutbound[i].id, r.channelOutbound[i].packet))
  }

  function OfKind(ls: seq<Load>, kind: Kind): seq<Load> {
    if ls == [] then []
    else OfKind(ls[..|ls| - 1], kind) + if KindOf(ls[|ls| - 1]) == kind then [ls[|ls| - 1]] else []
  }

  lemma OfKindSnoc(ls: seq<Load>, l: Load, kind: Kind)
    ensures OfKind(ls + [l], kind) == OfKind(ls, kind) + if KindOf(l) == kind then [l] else []
  {
    assert (ls + [l])[..|ls|] == ls;
  }

  lemma OfKindOne(l: Load, kind: Kind)
    ensures OfKind([l], kind) == if KindOf(l) == kind then [l] else []
  {
    assert [l][..0] == [];
  }

  predicate SameQueues(r: Routes, s: Routes) {
    s.relayOutbound == r.relayOutbound && s.udpOutbound == r.udpOutbound && s.channelOutbound == r.channelOutbound
  }

  /** One transmit joins the end of the queue of its load's kind. */
  lemma TransmitJoins(r: Routes, a: SocketAddr, contents: seq<byte>, kind: Kind)
    requires RoutesAreOwned(r)
    ensures Queue(RouteTransmit(r, a, contents), kind) == Queue(r, kind) + OfKind([LoadFor(r, a, contents)], kind)
  {
    OfKindOne(LoadFor(r, a, contents), kind);
  }

  /** A response joins the queue a transmit to the same address would join. */
  lemma ResponseJoins(r: Routes, addr: SocketAddr, source: Option<EndpointId>, contents: seq<byte>, kind: Kind)
    requires RoutesAreOwned(r) && AddressBook(r)
    requires match source
             case Some(peer) => addr in r.addrToPeer && r.addrToPeer[addr] == peer
             case None => !IsStandin(addr)
    ensures Queue(PushResponse(r, addr, source, contents), kind) == Queue(r, kind) + OfKind([LoadFor(r, addr, contents)], kind)
  {
    OfKindOne(LoadFor(r, addr, contents), kind);
  }

  lemma {:induction false} DrainJoins(r: Routes, outs: seq<NoqOutput>, kind: Kind)
    requires RoutesAreOwned(r)
    ensures Queue(DrainAllRoutes(r, outs), kind) == Queue(r, kind) + OfKind(TransmitsOf(r, outs), kind)
    decreases |outs|
  {
    hide Queue, RouteTransmit, OfKind;
    if outs == [] {
      NothingJoins(r, kind);
    } else {
      var before, last := outs[..|outs| - 1], outs[|outs| - 1];
      DrainJoins(r, before, kind);
      var mid := DrainAllRoutes(r, before);
      if last.Transmit? {
        var l := LoadFor(r, last.destination, last.contents);
        assert TransmitsOf(r, outs) == TransmitsOf(r, before) + [l];
        TransmitJoins(mid, last.destination, last.contents, kind);
        OfKindSnoc(TransmitsOf(r, before), l, kind);
        OfKindOne(l, kind);
        assert LoadFor(mid, last.destination, last.contents) == l;
      } else {
        assert TransmitsOf(r, outs) == TransmitsOf(r, before);
      }
    }
  }

  lemma AnswerJoins(s: System, r: Routes, addr: SocketAddr, source: Option<EndpointId>, v: Verdict, kind: Kind)
    requires RoutesAreOwned(r) && AddressBook(r)
    requires match source
             case Some(peer) => addr in r.addrToPeer && r.addrToPeer[addr] == peer
             case None => !IsStandin(addr)
    ensures Queue(HandleRoutes(r, s.owners.conns, s.relays.closed, addr, source, v), kind)
         == Queue(r, kind) + OfKind(AnswerTo(s, r, addr, v), kind)
  {
    hide Queue, PushResponse, AddressBook;
    if Response(s.owners.conns, s.relays.closed, v).Some? {
      ResponseJoins(r, addr, source, Response(s.owners.conns, s.relays.closed, v).value, kind);
    } else {
      assert Queue(r, kind) + [] == Queue(r, kind);
    }
  }

  lemma PeerAnswerJoins(s: System, peer: EndpointId, via: nat, v: Verdict, kind: Kind)
    requires RoutesInv(s.routes) && HostsLeft(s.routes)
    ensures
      var (r, addr) := AddrForPeer(s.routes, peer, via);
      Queue(HandleRoutes(r, s.owners.conns, s.relays.closed, addr, Some(peer), v), kind)
        == Queue(s.routes, kind) + OfKind(AnswerTo(s, r, addr, v), kind)
  {
    AddrForPeerKeeps(s.routes, peer, via);
    AddressJoinsNothing(s.routes, peer, via, kind);
    hide AddrForPeer, HandleRoutes, Queue, BookGrows, Queues, ChannelTable, AnswerTo;
    var (r, addr) := AddrForPeer(s.routes, peer, via);
    AnswerJoins(s, r, addr, Some(peer), v, kind);
  }

  lemma AddressJoinsNothing(r: Routes, peer: EndpointId, via: nat, kind: Kind)
    ensures SameQueues(r, AddrForPeer(r, peer, via).0) && Queue(AddrForPeer(r, peer, via).0, kind) == Queue(r, kind)
  {
  }

  // ----- one step -----

  /** The step takes the front of a queue. */
  predicate Pops(s: System, e: Event, kind: Kind) {
    && Queue(s.routes, kind) != []
    && match kind
       case RelayQueue => e == Flush(RelayTurn)
       case UdpQueue => e == Flush(UdpTurn)
       case ChannelQueue => e == Flush(ChannelTurn)
  }

  lemma TaskOffers(s: System, e: TaskEvent, kind: Kind)
    requires G.SessionsInv(s.sessions) && TaskEnabled(s, e)
    ensures Queue(TaskApply(s, e).routes, kind) == Queue(s.routes, kind) + OfKind(Offers(s, Task(e)), kind)
  {
    hide G.SessionsInv, Queue, OfKind, R.Apply, C.Apply;
    match e {
      case Connect(peer, direct, dialKey, _, _) =>
        DialJoinsNothing(s, e, kind);
        hide ConnectStep;
      case Publish(id, payload) =>
        PublishJoins(s, id, payload, kind);
        hide PublishStep;
      case ChannelOpens(id, wire) =>
        ChannelJoinsNothing(s, id, wire, kind);
        hide ChannelStep;
      case _ =>
        OtherTasksKeepRoutes(s, e);
        hide TaskApply;
    }
    NothingJoins(s.routes, kind);
  }

  lemma NothingJoins(r: Routes, kind: Kind)
    ensures Queue(r, kind) + OfKind([], kind) == Queue(r, kind)
  {
  }

  lemma SameQueue(r: Routes, s: Routes, kind: Kind)
    requires SameQueues(r, s)
    ensures Queue(s, kind) == Queue(r, kind)
  {
  }

  lemma DialJoinsNothing(s: System, e: TaskEvent, kind: Kind)
    requires TaskEnabled(s, e) && e.Connect?
    ensures Queue(ConnectStep(s, e.peer, e.direct, e.dialKey, e.upgradeKey, e.handle).routes, kind) == Queue(s.routes, kind)
  {
    DialMovesNoQueue(s.routes, e.peer, e.dialKey);
    SameQueue(s.routes, ConnectStep(s, e.peer, e.direct, e.dialKey, e.upgradeKey, e.handle).routes, kind) by {
      hide C.Apply, C.Enabled, Queue, DialStandin;
    }
    hide Queue, C.Apply, C.Enabled, ConnectStep;
  }

  lemma DialMovesNoQueue(r: Routes, peer: EndpointId, dialKey: nat)
    ensures SameQueues(r, DialStandin(r, peer, dialKey).0)
  {
    hide DocPrefixAddr;
  }

  lemma ChannelJoinsNothing(s: System, id: nat, wire: ChannelWire, kind: Kind)
    requires id in s.sessions.live
    ensures Queue(ChannelStep(s, id, wire).routes, kind) == Queue(s.routes, kind)
  {
    RegisteringMovesNoQueue(s.routes, s.sessions.live[id].peer, wire, G.ChannelFallback(s.sessions, id));
    SameQueue(s.routes, ChannelStep(s, id, wire).routes, kind) by {
      hide Queue, G.EndSession, G.ChannelFallback, RegisterChannel;
    }
    hide Queue, ChannelStep, G.ChannelFallback;
  }

  lemma RegisteringMovesNoQueue(r: Routes, peer: EndpointId, wire: ChannelWire, fallback: nat)
    ensures SameQueues(r, RegisterChannel(r, peer, wire, fallback))
  {
    hide DocPrefixAddr;
  }

  /** A live session holds its peer's slot with its own relay, so that is where
      its signal goes. */
  lemma PublishJoins(s: System, id: nat, payload: seq<byte>, kind: Kind)
    requires G.SessionsInv(s.sessions) && id in s.sessions.live
    ensures
      var session := s.sessions.live[id];
      Queue(PublishStep(s, id, payload).routes, kind)
        == Queue(s.routes, kind) + OfKind([ForRelay(session.relay, session.peer, Signal(session.peer, payload))], kind)
  {
    var session := s.sessions.live[id];
    OfKindOne(ForRelay(session.relay, session.peer, Signal(session.peer, payload)), kind);
    hide OfKind, G.SlotsHaveSessions, G.InboxesUnderSlots, G.ReadsAreTenured;
  }

  /** A turn of a flush loop takes the front of its own queue, if there is one, and
      sends exactly that: by a relay while its key is pooled, by a channel while it
      is registered, by UDP while there is a socket. Otherwise it is dropped. */
  lemma RelayTurnTakes(s: System, kind: Kind)
    ensures
      var t, q := RelayTurnStep(s), Queue(s.routes, RelayQueue);
      && Queue(t.routes, kind) == Queue(s.routes, kind)[(if q != [] && kind == RelayQueue then 1 else 0)..]
      && t.sent == s.sent + if q != [] && q[0].key in s.relays.pool.conns
                            then [OnRelay(s.relays.pool.conns[q[0].key], q[0].peer, q[0].packet)] else []
  {
    if s.routes.relayOutbound != [] {
      PopRelayQueues(s.routes, s.relays.pool.conns, kind);
      hide PopRelay;
    }
    assert Queue(s.routes, kind)[0..] == Queue(s.routes, kind);
  }

  lemma PopRelayQueues(r: Routes, pool: map<nat, nat>, kind: Kind)
    requires r.relayOutbound != []
    ensures
      var (t, w) := PopRelay(r, pool);
      var front := Queue(r, RelayQueue)[0];
      && Queue(t, kind) == Queue(r, kind)[(if kind == RelayQueue then 1 else 0)..]
      && w == if front.key in pool then Some(OnRelay(pool[front.key], front.peer, front.packet)) else None
  {
  }

  lemma UdpTurnTakes(s: System, kind: Kind)
    ensures
      var t, q := UdpTurnStep(s), Queue(s.routes, UdpQueue);
      && Queue(t.routes, kind) == Queue(s.routes, kind)[(if q != [] && kind == UdpQueue then 1 else 0)..]
      && t.sent == s.sent + if q != [] && s.udpBound then [OnUdp(q[0].remote, q[0].packet)] else []
  {
  }

  lemma ChannelTurnTakes(s: System, kind: Kind)
    ensures
      var t, q := ChannelTurnStep(s), Queue(s.routes, ChannelQueue);
      && Queue(t.routes, kind) == Queue(s.routes, kind)[(if q != [] && kind == ChannelQueue then 1 else 0)..]
      && t.sent == s.sent + if q != [] && q[0].id in s.routes.channels
                            then [OnChannel(s.routes.channels[q[0].id].wire, q[0].packet)] else []
  {
  }

  lemma TurnOffers(s: System, e: FlushEvent, kind: Kind)
    requires FlushEnabled(s, e) && e.Turn?
    ensures Queue(FlushApply(s, e).routes, kind) == Queue(s.routes, kind) + OfKind(Offers(s, Flush(e)), kind)
  {
    DrainJoins(s.routes, e.outputs, kind);
    hide Queue, OfKind, DrainAllRoutes, DrainAllOwners, OutputsFit, ArmStep, RelayTurnStep, UdpTurnStep, ChannelTurnStep;
  }

  lemma PopsOffer(s: System, e: FlushEvent, kind: Kind)
    requires FlushEnabled(s, e) && (e.RelayTurn? || e.UdpTurn? || e.ChannelTurn?)
    ensures Queue(FlushApply(s, e).routes, kind) == Queue(s.routes, kind)[(if Pops(s, Flush(e), kind) then 1 else 0)..]
  {
    RelayTurnTakes(s, kind);
    UdpTurnTakes(s, kind);
    ChannelTurnTakes(s, kind);
    hide TurnStep, ArmStep, RelayTurnStep, UdpTurnStep, ChannelTurnStep, Queue;
  }

  lemma RestsOffer(s: System, e: FlushEvent)
    requires FlushEnabled(s, e) && (e.RelaySent? || e.UdpSent? || e.ChannelSent? || e.ArmTurn?)
    ensures SameQueues(s.routes, FlushApply(s, e).routes)
  {
    if e.ArmTurn? {
      ArmingJoinsNothing(s, e.lingered);
      hide ArmStep;
    } else {
      hide TurnStep, RelayTurnStep, UdpTurnStep, ChannelTurnStep, ArmStep, R.Apply;
    }
  }

  lemma ArmingJoinsNothing(s: System, lingered: bool)
    ensures SameQueues(s.routes, ArmStep(s, lingered).routes)
  {
    hide R.Apply, NewIds, C.AllSettled, G.SpawnUpgrades, WakeWaiters;
  }

  lemma FlushOffers(s: System, e: FlushEvent, kind: Kind)
    requires FlushEnabled(s, e)
    ensures Queue(FlushApply(s, e).routes, kind)
         == Queue(s.routes, kind)[(if Pops(s, Flush(e), kind) then 1 else 0)..] + OfKind(Offers(s, Flush(e)), kind)
  {
    NothingJoins(s.routes, kind);
    assert OfKind([], kind) == [];
    hide FlushApply, FlushEnabled, Queue, OfKind;
    if e.RelayTurn? || e.UdpTurn? || e.ChannelTurn? {
      PopsOffer(s, e, kind);
    } else if e.Turn? {
      TurnOffers(s, e, kind);
    } else {
      RestsOffer(s, e);
      SameQueue(s.routes, FlushApply(s, e).routes, kind);
    }
  }

  lemma SelectOffers(s: System, e: SelectEvent, kind: Kind)
    requires RoutesInv(s.routes) && SelectEnabled(s, e)
    ensures Queue(SelectApply(s, e).routes, kind) == Queue(s.routes, kind) + OfKind(Offers(s, Select(e)), kind)
  {
    NothingJoins(s.routes, kind);
    match e {
      case RelayReady(key, conn, result, now, spread) =>
        RelayReadyOffers(s, e, kind);
        hide RelayReadyStep;
      case UdpReady(remote, v) =>
        AnswerJoins(s, s.routes, remote, None, v, kind);
        hide Queue, OfKind, HandleRoutes, C.Apply, AnswerTo;
      case ChannelReady(id, outcome) =>
        ChannelReadyOffers(s, e, kind);
        hide ChannelReadyStep;
      case _ =>
        OtherArmsKeepRoutes(s, e);
        hide SelectApply, Queue, OfKind;
    }
  }

  lemma OtherArmsKeepRoutes(s: System, e: SelectEvent)
    requires SelectEnabled(s, e) && !e.RelayReady? && !e.UdpReady? && !e.ChannelReady?
    ensures SelectApply(s, e).routes == s.routes
  {
    hide Sweep, R.Apply, RelayReadyStep, ChannelReadyStep, DatagramStep;
  }

  lemma RelayReadyOffers(s: System, e: SelectEvent, kind: Kind)
    requires RoutesInv(s.routes) && SelectEnabled(s, e) && e.RelayReady?
    ensures Queue(RelayReadyStep(s, e.key, e.conn, e.result, e.now, e.spread).routes, kind)
         == Queue(s.routes, kind) + OfKind(Offers(s, Select(e)), kind)
  {
    NothingJoins(s.routes, kind);
    ReceivedKeepsClosed(s.relays, R.Received(e.key, e.conn, !e.result.RecvFailed?, e.now, e.spread));
    if e.result.GotDatagram? {
      PeerAnswerJoins(s, e.result.source, e.key, e.result.verdict, kind);
    }
    hide RoutesInv, Queue, OfKind, HandleRoutes, AddrForPeer, C.Apply, R.Apply, AnswerTo, G.ReceiveSignal;
  }

  lemma ChannelReadyOffers(s: System, e: SelectEvent, kind: Kind)
    requires RoutesInv(s.routes) && SelectEnabled(s, e) && e.ChannelReady?
    ensures Queue(ChannelReadyStep(s, e.id, e.outcome).routes, kind)
         == Queue(s.routes, kind) + OfKind(Offers(s, Select(e)), kind)
  {
    NothingJoins(s.routes, kind);
    if e.outcome.ChannelDatagram? && e.id in s.routes.channels {
      PeerAnswerJoins(s, s.routes.channels[e.id].peer, s.routes.channels[e.id].fallbackRelay, e.outcome.verdict, kind);
    }
    if e.outcome.ChannelDied? {
      RetiringJoinsNothing(s.routes, e.id, kind);
    }
    hide RoutesInv, Queue, OfKind, HandleRoutes, AddrForPeer, RetireChannel, C.Apply, AnswerTo;
  }

  lemma RetiringJoinsNothing(r: Routes, id: nat, kind: Kind)
    ensures Queue(RetireChannel(r, id), kind) == Queue(r, kind)
  {
    SameQueue(r, RetireChannel(r, id), kind);
    hide Queue;
  }

  /** A step takes at most the front of each queue, and its offers join the ends. */
  lemma StepMovesTheQueues(s: System, e: Event, kind: Kind)
    requires SystemInv(s) && Enabled(s, e)
    ensures Queue(Apply(s, e).routes, kind)
         == Queue(s.routes, kind)[(if Pops(s, e, kind) then 1 else 0)..] + OfKind(Offers(s, e), kind)
  {
    hide SystemInv, TaskApply, FlushApply, SelectApply, TaskEnabled, FlushEnabled, SelectEnabled, Queue, OfKind, Offers;
    InvParts(s);
    match e {
      case Task(t) => TaskOffers(s, t, kind);
      case Flush(f) => FlushOffers(s, f, kind);
      case Select(c) => SelectOffers(s, c, kind);
    }
  }

  // ----- every run -----

  ghost function Offered(s: System, es: seq<Event>, kind: Kind): seq<Load>
    requires IsRun(s, es)
    decreases |es|
  {
    if es == [] then [] else OfKind(Offers(s, es[0]), kind) + Offered(Apply(s, es[0]), es[1..], kind)
  }

  ghost function Popped(s: System, es: seq<Event>, kind: Kind): nat
    requires IsRun(s, es)
    decreases |es|
  {
    if es == [] then 0 else (if Pops(s, es[0], kind) then 1 else 0) + Popped(Apply(s, es[0]), es[1..], kind)
  }

  /** The queues are first in, first out over every run: what is in one is what was
      offered to it, in order, without the front part already taken. */
  lemma {:induction false} QueuesAreFifo(s: System, es: seq<Event>, kind: Kind)
    requires SystemInv(s) && IsRun(s, es)
    ensures
      var all, n := Queue(s.routes, kind) + Offered(s, es, kind), Popped(s, es, kind);
      n <= |all| && Queue(After(s, es).routes, kind) == all[n..]
    decreases |es|
  {
    hide SystemInv, Apply, Enabled, Queue, OfKind, Offers;
    if es != [] {
      var e, t := es[0], Apply(s, es[0]);
      StepKeepsInv(s, e);
      StepMovesTheQueues(s, e, kind);
      QueuesAreFifo(t, es[1..], kind);
      assert Pops(s, e, kind) ==> Queue(s.routes, kind) != [];
      hide Pops;
      var k := if Pops(s, e, kind) then 1 else 0;
      var offered := OfKind(Offers(s, e), kind);
      assert (Queue(s.routes, kind) + (offered + Offered(t, es[1..], kind)))[k..]
          == Queue(s.routes, kind)[k..] + offered + Offered(t, es[1..], kind);
    }
  }

  lemma SelectSends(s: System, e: SelectEvent)
    requires SelectEnabled(s, e)
    ensures SelectApply(s, e).sent == s.sent
  {
    hide R.Apply, C.Apply, AddrForPeer, HandleRoutes, RetireChannel, G.ReceiveSignal, Sweep;
  }

  /** What one load becomes when it is taken: a send by the very wire it is for, if
      that is there at that moment; else nothing. */
  function Delivery(s: System, l: Load): seq<WireSend> {
    match l
    case ForRelay(key, peer, packet) =>
      if key in s.relays.pool.conns then [OnRelay(s.relays.pool.conns[key], peer, packet)] else []
    case ForChannel(id, packet) => if id in s.routes.channels then [OnChannel(s.routes.channels[id].wire, packet)] else []
    case ForUdp(remote, packet) => if s.udpBound then [OnUdp(remote, packet)] else []
  }

  lemma StepSendsTheFront(s: System, e: Event, kind: Kind)
    requires Enabled(s, e) && Pops(s, e, kind)
    ensures Apply(s, e).sent == s.sent + Delivery(s, Queue(s.routes, kind)[0])
  {
    RelayTurnTakes(s, kind);
    UdpTurnTakes(s, kind);
    ChannelTurnTakes(s, kind);
    hide RelayTurnStep, UdpTurnStep, ChannelTurnStep, TurnStep, ArmStep, TaskApply, SelectApply;
  }

  lemma FlushSendsNothingElse(s: System, e: FlushEvent)
    requires FlushEnabled(s, e)
    requires !Pops(s, Flush(e), RelayQueue) && !Pops(s, Flush(e), UdpQueue) && !Pops(s, Flush(e), ChannelQueue)
    ensures FlushApply(s, e).sent == s.sent
  {
    RelayTurnTakes(s, RelayQueue);
    UdpTurnTakes(s, UdpQueue);
    ChannelTurnTakes(s, ChannelQueue);
    hide RelayTurnStep, UdpTurnStep, ChannelTurnStep, R.Apply, DrainAllRoutes, DrainAllOwners, OutputsFit, NewIds, C.AllSettled;
  }

  lemma OtherStepsSendNothing(s: System, e: Event)
    requires Enabled(s, e) && forall kind :: !Pops(s, e, kind)
    ensures Apply(s, e).sent == s.sent
  {
    assert !Pops(s, e, RelayQueue) && !Pops(s, e, UdpQueue) && !Pops(s, e, ChannelQueue);
    hide TaskApply, FlushApply, SelectApply, TaskEnabled, FlushEnabled, SelectEnabled, Pops;
    match e {
      case Task(t) => TasksSendNothing(s, t);
      case Flush(f) => FlushSendsNothingElse(s, f);
      case Select(c) => SelectSends(s, c);
    }
  }

  /** Routing holds over every run: the n-th packet taken for a kind of wire is the
      n-th one offered to it, unaltered, and it is sent by the wire its address was
      routed to when it was offered, whatever became of the route since: over the
      connection then pooled under that relay key or the channel then registered
      under that id, or, with none there, by no other. Nothing else is ever sent. */
  lemma EverySendGoesByItsRoute(homeUrl: R.Url, now: Instant, webrtc: bool, udpBound: bool, es: seq<Event>, e: Event, kind: Kind)
    requires IsRun(Bind(homeUrl, now, webrtc, udpBound), es)
    requires Enabled(After(Bind(homeUrl, now, webrtc, udpBound), es), e)
    ensures
      var b := Bind(homeUrl, now, webrtc, udpBound);
      var s := After(b, es);
      && (Pops(s, e, kind) ==>
            && Popped(b, es, kind) < |Offered(b, es, kind)|
            && Apply(s, e).sent == s.sent + Delivery(s, Offered(b, es, kind)[Popped(b, es, kind)]))
      && ((forall k :: !Pops(s, e, k)) ==> Apply(s, e).sent == s.sent)
  {
    hide Apply, Enabled, SystemInv, Delivery;
    var b := Bind(homeUrl, now, webrtc, udpBound);
    BindIsGood(homeUrl, now, webrtc, udpBound);
    BoundQueuesNothing(homeUrl, now, webrtc, udpBound, kind);
    hide Bind, Offers;
    QueuesAreFifo(b, es, kind);
    var s := After(b, es);
    hide IsRun, After, Offered, Popped;
    if Pops(s, e, kind) {
      hide Queue;
      StepSendsTheFront(s, e, kind);
    } else if forall k :: !Pops(s, e, k) {
      hide Queue;
      OtherStepsSendNothing(s, e);
    }
  }

  lemma BoundQueuesNothing(homeUrl: R.Url, now: Instant, webrtc: bool, udpBound: bool, kind: Kind)
    ensures Queue(Bind(homeUrl, now, webrtc, udpBound).routes, kind) == []
  {
  }
}

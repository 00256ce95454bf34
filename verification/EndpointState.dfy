/** The endpoint's shared state, as the code keeps it: one record of maps and
    queues updated in place (`State` in endpoint/src/endpoint_impl.rs). Every
    method is proved to move its part of the state as the specification
    functions of the component modules say, and to touch nothing else. */
module EndpointState {
  import opened Types
  import opened Routing
  import opened Wakeups
  import opened Runtime
  import R = RelayPool
  import G = Signaling
  import C = Connections

  class State {
    var conns: map<C.Handle, C.ConnEntry>
    var nextConnEpoch: nat
    var acceptQueue: seq<C.Ref>

    var peerToAddr: map<EndpointId, SocketAddr>
    var addrToPeer: map<SocketAddr, EndpointId>
    var nextHost: nat
    var relayOutbound: seq<RelayItem>
    var udpOutbound: seq<UdpItem>
    var channelOutbound: seq<ChannelItem>
    var routes: map<SocketAddr, RouteWire>

    var relayPool: map<nat, nat>
    var relayKeys: map<R.Url, nat>
    var relayOpening: set<R.Url>
    var newRelays: seq<(nat, nat)>
    var nextRelayKey: nat

    var pendingUpgrades: seq<(EndpointId, nat)>
    const webrtcEnabled: bool
    var signaling: map<EndpointId, nat>
    var signalInboxes: map<EndpointId, seq<G.Payload>>

    var channels: map<nat, ChannelEntry>
    var newChannels: seq<(nat, ChannelWire)>
    var nextChannelId: nat

    var closed: bool

    var waiters: seq<TaskId>
    var pumpWaker: bool
    var pumpKicked: bool
    /** Tasks whose fired wakers will resume them, and whether the pump's will. */
    ghost var ready: set<TaskId>
    ghost var pumpReady: bool

    // ----- the parts the specifications speak of -----

    function RoutesNow(): Routes
      reads `peerToAddr, `addrToPeer, `nextHost, `routes, `channels, `newChannels, `nextChannelId,
            `relayOutbound, `udpOutbound, `channelOutbound
    {
      Routes(peerToAddr, addrToPeer, nextHost, routes, channels, newChannels, nextChannelId,
             relayOutbound, udpOutbound, channelOutbound)
    }

    function PoolNow(): R.Pool
      reads `relayPool, `relayKeys, `relayOpening, `newRelays, `nextRelayKey
    {
      R.Pool(relayPool, relayKeys, relayOpening, newRelays, nextRelayKey)
    }

    function SignalsNow(): G.Signals
      reads `signaling, `signalInboxes, `pendingUpgrades
    {
      G.Signals(webrtcEnabled, signaling, signalInboxes, pendingUpgrades)
    }

    function ConnsNow(): C.Conns
      reads `conns, `acceptQueue, `nextConnEpoch
    {
      C.Conns(conns, acceptQueue, nextConnEpoch)
    }

    ghost function WakeNow(): Wake
      reads `waiters, `pumpWaker, `pumpKicked, `ready, `pumpReady
    {
      Wake(waiters, pumpWaker, pumpKicked, ready, pumpReady)
    }

    constructor (webrtc: bool)
      ensures RoutesNow() == NewRoutes() && PoolNow() == R.Pool(map[], map[], {}, [], HOME_RELAY)
      ensures SignalsNow() == G.NoSessions(webrtc).signals && ConnsNow() == C.NoConns().conns
      ensures WakeNow() == NoWakers() && !closed
    {
      conns, nextConnEpoch, acceptQueue := map[], 0, [];
      peerToAddr, addrToPeer, nextHost, routes := map[], map[], 0, map[];
      relayOutbound, udpOutbound, channelOutbound := [], [], [];
      relayPool, relayKeys, relayOpening, newRelays, nextRelayKey := map[], map[], {}, [], HOME_RELAY;
      pendingUpgrades, webrtcEnabled, signaling, signalInboxes := [], webrtc, map[], map[];
      channels, newChannels, nextChannelId := map[], [], 0;
      closed, waiters, pumpWaker, pumpKicked := false, [], false, false;
      ready, pumpReady := {}, false;
    }

    // ----- wakers -----

    method WakeWaiters()
      modifies `waiters, `ready
      ensures WakeNow() == Wakeups.WakeWaiters(old(WakeNow()))
    {
      var drained := waiters;
      waiters := [];
      for i := 0 to |drained|
        invariant waiters == [] && ready == old(ready) + Tasks(drained[..i])
      {
        assert drained[..i + 1] == drained[..i] + [drained[i]];
        ready := ready + {drained[i]};
      }
      assert drained[..|drained|] == drained;
    }

    method KickPump()
      modifies `pumpKicked, `pumpWaker, `pumpReady
      ensures WakeNow() == Wakeups.KickPump(old(WakeNow()))
    {
      pumpKicked := true;
      if pumpWaker {
        pumpWaker := false;
        pumpReady := true;
      }
    }

    /** `wait_until`'s poll when its check has no answer yet. */
    method Park(task: TaskId)
      modifies `waiters, `ready
      ensures WakeNow() == ParkWaiter(old(WakeNow()), task)
    {
      waiters := waiters + [task];
      ready := ready - {task};
    }

    /** A waiter's future is gone, resolved or dropped; a waker it left parked stays. */
    ghost method Forget(task: TaskId)
      modifies `ready
      ensures WakeNow() == ForgetWaiter(old(WakeNow()), task)
    {
      ready := ready - {task};
    }

    // ----- addresses, routes and channels -----

    method AddrForPeer(peer: EndpointId, via: nat) returns (addr: SocketAddr)
      modifies `peerToAddr, `addrToPeer, `nextHost, `routes
      ensures (RoutesNow(), addr) == Routing.AddrForPeer(old(RoutesNow()), peer, via)
    {
      if peer in peerToAddr {
        return peerToAddr[peer];
      }
      nextHost := nextHost + 1;
      addr := DocPrefixAddr(STANDIN_SPACE, nextHost);
      peerToAddr := peerToAddr[peer := addr];
      addrToPeer := addrToPeer[addr := peer];
      routes := routes[addr := Relay(via)];
    }

    /** A closing endpoint refuses the channel and closes its wire; otherwise the
        peer's route moves onto it. */
    method RegisterChannel(peer: EndpointId, wire: ChannelWire) returns (ok: bool, closes: seq<ChannelWire>)
      modifies `channels, `newChannels, `nextChannelId, `peerToAddr, `addrToPeer, `nextHost, `routes,
               `pumpKicked, `pumpWaker, `pumpReady
      ensures ok == !closed && closes == if closed then [wire] else []
      ensures !ok ==> RoutesNow() == old(RoutesNow()) && WakeNow() == old(WakeNow())
      ensures ok ==> WakeNow() == Wakeups.KickPump(old(WakeNow()))
      ensures ok ==> RoutesNow() == Routing.RegisterChannel(old(RoutesNow()), peer, wire,
                                      if peer in signaling then signaling[peer] else HOME_RELAY)
    {
      hide Routing.RegisterChannel, Wakeups.KickPump;
      if closed {
        return false, [wire];
      }
      MoveOntoChannel(peer, wire, if peer in signaling then signaling[peer] else HOME_RELAY);
      KickPump();
      return true, [];
    }

    method MoveOntoChannel(peer: EndpointId, wire: ChannelWire, fallback: nat)
      modifies `channels, `newChannels, `nextChannelId, `peerToAddr, `addrToPeer, `nextHost, `routes
      ensures RoutesNow() == Routing.RegisterChannel(old(RoutesNow()), peer, wire, fallback)
    {
      hide Routing.AddrForPeer;
      nextChannelId := nextChannelId + 1;
      var id := nextChannelId;
      channels := channels[id := ChannelEntry(wire, peer, fallback)];
      newChannels := newChannels + [(id, wire)];
      ghost var r1 := RoutesNow();
      var synthetic := AddrForPeer(peer, fallback);
      assert (RoutesNow(), synthetic) == Routing.AddrForPeer(r1, peer, fallback);
      routes := routes[synthetic := Channel(id)];
    }

    method RetireChannel(id: nat)
      modifies `channels, `routes
      ensures RoutesNow() == Routing.RetireChannel(old(RoutesNow()), id)
    {
      if id !in channels {
        return;
      }
      var entry := channels[id];
      channels := channels - {id};
      if entry.peer in peerToAddr {
        var synthetic := peerToAddr[entry.peer];
        if synthetic in routes && routes[synthetic] == Channel(id) {
          routes := routes[synthetic := Relay(entry.fallbackRelay)];
        }
      }
    }

    // ----- the relay pool -----

    method RegisterRelay(url: R.Url, conn: nat) returns (key: nat)
      modifies `nextRelayKey, `relayPool, `relayKeys, `newRelays, `pumpKicked, `pumpWaker, `pumpReady
      ensures key == old(nextRelayKey) && PoolNow() == R.RegisterRelay(old(PoolNow()), url, conn)
      ensures WakeNow() == Wakeups.KickPump(old(WakeNow()))
    {
      key := nextRelayKey;
      nextRelayKey := nextRelayKey + 1;
      relayPool := relayPool[key := conn];
      relayKeys := relayKeys[R.Normalize(url) := key];
      newRelays := newRelays + [(key, conn)];
      KickPump();
    }

    /** Returns the retired connection, for the caller to close. */
    method RetireRelay(key: nat) returns (conn: Option<nat>)
      modifies `relayPool, `relayKeys
      ensures PoolNow() == R.RetireRelay(old(PoolNow()), key)
      ensures conn == if key in old(relayPool) then Some(old(relayPool)[key]) else None
    {
      conn := if key in relayPool then Some(relayPool[key]) else None;
      relayPool := relayPool - {key};
      relayKeys := map url | url in relayKeys && relayKeys[url] != key :: relayKeys[url];
    }

    // ----- signaling -----

    method BeginSignaling(peer: EndpointId, relay: nat) returns (ok: bool)
      modifies `signaling
      ensures (SignalsNow(), ok) == G.BeginSignaling(old(SignalsNow()), peer, relay)
    {
      if peer in signaling {
        return false;
      }
      signaling := signaling[peer := relay];
      return true;
    }

    method EndSignaling(peer: EndpointId)
      modifies `signaling, `signalInboxes
      ensures SignalsNow() == G.EndSignaling(old(SignalsNow()), peer)
    {
      signaling := signaling - {peer};
      signalInboxes := signalInboxes - {peer};
    }

    method PushSignalOutbound(relay: nat, peer: EndpointId, payload: seq<byte>)
      modifies `relayOutbound, `pumpKicked, `pumpWaker, `pumpReady
      ensures RoutesNow() == PushSignal(old(RoutesNow()), relay, peer, payload)
      ensures WakeNow() == Wakeups.KickPump(old(WakeNow()))
    {
      relayOutbound := relayOutbound + [RelayItem(relay, peer, Signal(peer, payload))];
      KickPump();
    }

    method PopSignalInbox(peer: EndpointId) returns (payload: Option<G.Payload>)
      modifies `signalInboxes
      ensures (SignalsNow(), payload) == G.PopInbox(old(SignalsNow()), peer)
    {
      if peer !in signalInboxes || signalInboxes[peer] == [] {
        return None;
      }
      var inbox := signalInboxes[peer];
      signalInboxes := signalInboxes[peer := inbox[1..]];
      return Some(inbox[0]);
    }

    /** Files an inbound signal; `spawn`: an answerer is to be spawned for it. */
    method HandleSignal(via: nat, source: EndpointId, payload: G.Payload) returns (spawn: bool)
      modifies `signaling, `signalInboxes, `waiters, `ready
      ensures (SignalsNow(), spawn) == G.HandleSignal(old(SignalsNow()), via, source, payload, closed)
      ensures WakeNow() == if !webrtcEnabled || closed then old(WakeNow()) else Wakeups.WakeWaiters(old(WakeNow()))
    {
      if !webrtcEnabled || closed {
        return false;
      }
      spawn := source !in signaling;
      if spawn {
        signaling := signaling[source := via];
      }
      var inbox := if source in signalInboxes then signalInboxes[source] else [];
      if |inbox| < G.INBOX_CAP {
        inbox := inbox + [payload];
      }
      signalInboxes := signalInboxes[source := inbox];
      WakeWaiters();
    }

    // ----- connections -----

    /** The entry, only while it is still the connection the caller was minted
        for: the slot's occupancy, and no other reference, finds it. */
    function EntryFor(ref: C.Ref): (entry: Option<C.ConnEntry>)
      reads this
      ensures entry.Some? ==> entry.value.epoch == ref.epoch && ref.handle in conns && entry.value == conns[ref.handle]
      ensures entry == None ==> !C.IsCurrent(ConnsNow(), ref)
    {
      if ref.handle in conns && conns[ref.handle].epoch == ref.epoch then Some(conns[ref.handle]) else None
    }

    method OnEvent(event: NoqOutput)
      requires event.ConnectedEvent? || event.LostEvent? || event.OtherEvent?
      requires !event.OtherEvent? ==> event.handle in conns
      modifies `conns, `acceptQueue
      ensures ConnsNow() == DrainConns(old(ConnsNow()), event)
    {
      match event
      case ConnectedEvent(h, tlsPeer) =>
        var entry := conns[h];
        if tlsPeer.Some? && (entry.expectedPeer == None || entry.expectedPeer == tlsPeer) {
          conns := conns[h := entry.(peer := tlsPeer, connected := true)];
          if entry.accepted {
            acceptQueue := acceptQueue + [C.Ref(h, entry.epoch)];
          }
        } else {
          conns := conns[h := entry.(error := Some(ConnectFailed), closing := true)];
        }
      case LostEvent(h, reason) =>
        var error := match reason
          case ApplicationClosed => Closed
          case LocallyClosed => Closed
          case IdleTimedOut => TimedOut
          case TransportLost => Other;
        conns := conns[h := conns[h].(error := Some(error))];
      case OtherEvent =>
    }

    /** One transmit noq handed over, onto the queue of its destination's current wire. */
    method RouteOut(destination: SocketAddr, contents: seq<byte>)
      requires RoutesAreOwned(RoutesNow())
      modifies `relayOutbound, `channelOutbound, `udpOutbound
      ensures RoutesNow() == RouteTransmit(old(RoutesNow()), destination, contents)
    {
      var packet := Quic(destination, contents);
      if destination in routes {
        match routes[destination]
        case Relay(key) =>
          assert destination in RoutesNow().routes;
          var peer := addrToPeer[destination];
          relayOutbound := relayOutbound + [RelayItem(key, peer, packet)];
        case Channel(id) =>
          channelOutbound := channelOutbound + [ChannelItem(id, packet)];
      } else {
        udpOutbound := udpOutbound + [UdpItem(destination, packet)];
      }
    }

    /** `outputs` is what noq yields to this drain's polls, in order. */
    method Drain(outputs: seq<NoqOutput>) returns (progressed: bool)
      requires RoutesAreOwned(RoutesNow())
      requires forall o :: o in outputs && (o.ConnectedEvent? || o.LostEvent? || o.DrainedNow?) ==> o.handle in conns
      modifies `conns, `acceptQueue, `relayOutbound, `channelOutbound, `udpOutbound
      ensures progressed == (outputs != [])
      ensures RoutesNow() == DrainAllRoutes(old(RoutesNow()), outputs)
      ensures ConnsNow() == DrainAllConns(old(ConnsNow()), outputs)
    {
      progressed := false;
      for i := 0 to |outputs|
        invariant progressed == (i > 0) && conns.Keys == old(conns.Keys)
        invariant RoutesNow() == DrainAllRoutes(old(RoutesNow()), outputs[..i])
        invariant ConnsNow() == DrainAllConns(old(ConnsNow()), outputs[..i])
      {
        assert outputs[..i + 1][..i] == outputs[..i] && outputs[i] in outputs;
        match outputs[i] {
          case Transmit(destination, contents) => RouteOut(destination, contents);
          case DrainedNow(h) => conns := conns[h := conns[h].(drained := true)];
          case event => OnEvent(event);
        }
        progressed := true;
      }
      assert outputs[..|outputs|] == outputs;
    }

    method PushResponse(addr: SocketAddr, source: Option<EndpointId>, contents: seq<byte>)
      modifies `relayOutbound, `channelOutbound, `udpOutbound
      ensures RoutesNow() == Routing.PushResponse(old(RoutesNow()), addr, source, contents)
    {
      var packet := Quic(addr, contents);
      if addr in routes && routes[addr].Relay? && source.Some? {
        relayOutbound := relayOutbound + [RelayItem(routes[addr].key, source.value, packet)];
      } else if addr in routes && routes[addr].Channel? {
        channelOutbound := channelOutbound + [ChannelItem(routes[addr].id, packet)];
      } else {
        udpOutbound := udpOutbound + [UdpItem(addr, packet)];
      }
    }

    method HandleDatagram(addr: SocketAddr, source: Option<EndpointId>, verdict: Verdict)
      modifies `conns, `nextConnEpoch, `relayOutbound, `channelOutbound, `udpOutbound
      ensures RoutesNow() == HandleRoutes(old(RoutesNow()), old(ConnsNow()), closed, addr, source, verdict)
      ensures ConnsNow() == HandleConns(old(ConnsNow()), closed, source, verdict)
    {
      match verdict
      case ForConnection =>
      case NewConnection(handle, refusal, failure) =>
        if closed {
          return;
        }
        if C.AcceptBacklog(ConnsNow()) >= C.ACCEPT_BACKLOG {
          PushResponse(addr, source, refusal);
          return;
        }
        match failure {
          case None =>
            var epoch := nextConnEpoch;
            nextConnEpoch := nextConnEpoch + 1;
            conns := conns[handle := C.ConnEntry(epoch, source, None, true, false, None, false, false)];
          case Some(response) =>
            if response.Some? {
              PushResponse(addr, source, response.value);
            }
        }
      case Respond(contents) => PushResponse(addr, source, contents);
      case Ignored =>
    }

    method HandleRelayDatagram(via: nat, source: EndpointId, verdict: Verdict)
      modifies `peerToAddr, `addrToPeer, `nextHost, `routes,
               `conns, `nextConnEpoch, `relayOutbound, `channelOutbound, `udpOutbound
      ensures
        var (r, addr) := Routing.AddrForPeer(old(RoutesNow()), source, via);
        RoutesNow() == HandleRoutes(r, old(ConnsNow()), closed, addr, Some(source), verdict)
      ensures ConnsNow() == HandleConns(old(ConnsNow()), closed, Some(source), verdict)
    {
      var addr := AddrForPeer(source, via);
      HandleDatagram(addr, Some(source), verdict);
    }

    /** A datagram of a channel retired meanwhile is dropped. */
    method HandleChannelDatagram(id: nat, verdict: Verdict)
      modifies `peerToAddr, `addrToPeer, `nextHost, `routes,
               `conns, `nextConnEpoch, `relayOutbound, `channelOutbound, `udpOutbound
      ensures id !in channels ==> RoutesNow() == old(RoutesNow()) && ConnsNow() == old(ConnsNow())
      ensures id in channels ==>
        var entry := channels[id];
        var (r, addr) := Routing.AddrForPeer(old(RoutesNow()), entry.peer, entry.fallbackRelay);
        && RoutesNow() == HandleRoutes(r, old(ConnsNow()), closed, addr, Some(entry.peer), verdict)
        && ConnsNow() == HandleConns(old(ConnsNow()), closed, Some(entry.peer), verdict)
    {
      if id !in channels {
        return;
      }
      var entry := channels[id];
      var synthetic := AddrForPeer(entry.peer, entry.fallbackRelay);
      HandleDatagram(synthetic, Some(entry.peer), verdict);
    }

    method CloseAll()
      modifies `conns
      ensures ConnsNow() == C.CloseAll(old(ConnsNow()))
    {
      var todo := conns.Keys;
      while todo != {}
        invariant todo <= conns.Keys == old(conns.Keys)
        invariant forall h :: h in todo ==> conns[h] == old(conns[h])
        invariant forall h :: h in conns && h !in todo ==> conns[h] == C.CloseAll(old(ConnsNow())).entries[h]
        decreases |todo|
      {
        var h :| h in todo;
        todo := todo - {h};
        if conns[h].error == None && !conns[h].drained {
          conns := conns[h := conns[h].(closing := true)];
        }
      }
      assert conns == C.CloseAll(old(ConnsNow())).entries;
    }

    /** `conn.close` through a reference that may be stale; kicks the pump if it closed. */
    method CloseConn(ref: C.Ref)
      modifies `conns, `pumpKicked, `pumpWaker, `pumpReady
      ensures ConnsNow() == C.CloseRef(old(ConnsNow()), ref)
      ensures
        var entry := old(EntryFor(ref));
        WakeNow() == if entry.Some? && C.Closable(entry.value) then Wakeups.KickPump(old(WakeNow())) else old(WakeNow())
    {
      var found := EntryFor(ref);
      if found.Some? && found.value.error == None && !found.value.drained {
        conns := conns[ref.handle := found.value.(closing := true)];
        KickPump();
      }
    }
  }
}

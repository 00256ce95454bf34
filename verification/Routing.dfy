/** Standin addresses, the route table, channels and the outbound queues
    (the routing half of `State` in endpoint/src/endpoint_impl.rs). */
module Routing {
  import opened Types

  const HOME_RELAY: nat := 0
  const STANDIN_SPACE: nat := 0x77
  const U32_LIMIT: nat := 0x1_0000_0000

  datatype SocketAddr =
    | V4(ip: nat, port: nat)
    | V6(s0: nat, s1: nat, s2: nat, s3: nat, s4: nat, s5: nat, s6: nat, s7: nat, port: nat)

  /** An address under the IPv6 documentation prefix; the casts to 16 bits truncate. */
  function DocPrefixAddr(space: nat, host: nat): SocketAddr {
    V6(0x2001, 0xdb8, space, 0, 0, 0, (host / 0x1_0000) % 0x1_0000, host % 0x1_0000, 4433)
  }

  /** Inside 2001:db8:77::/48, where no real socket address lies. */
  predicate IsStandin(a: SocketAddr) {
    a.V6? && a.s0 == 0x2001 && a.s1 == 0xdb8 && a.s2 == STANDIN_SPACE
  }

  function HostOf(a: SocketAddr): nat
    requires a.V6?
  {
    a.s6 * 0x1_0000 + a.s7
  }

  lemma StandinsAreDistinct(host: nat)
    requires host < U32_LIMIT
    ensures IsStandin(DocPrefixAddr(STANDIN_SPACE, host))
    ensures HostOf(DocPrefixAddr(STANDIN_SPACE, host)) == host
  {
  }

  /** The wire behind one standin: a pool relay, or a channel, by key. */
  datatype RouteWire = Relay(key: nat) | Channel(id: nat)

  /** A negotiated data channel: its identity, and the endpoint at its far end. */
  datatype ChannelWire = ChannelWire(id: nat, farEnd: EndpointId)

  datatype ChannelEntry = ChannelEntry(wire: ChannelWire, peer: EndpointId, fallbackRelay: nat)

  /** What travels the outbound queues. The code moves only `contents`; the
      address noq put on a datagram, and the peer a signal was published to,
      ride along as its history. */
  datatype Packet =
    | Quic(destination: SocketAddr, contents: seq<byte>)
    | Signal(to: EndpointId, contents: seq<byte>)

  datatype RelayItem = RelayItem(key: nat, peer: EndpointId, packet: Packet)
  datatype ChannelItem = ChannelItem(id: nat, packet: Packet)
  datatype UdpItem = UdpItem(remote: SocketAddr, packet: Packet)

  datatype Routes = Routes(
    peerToAddr: map<EndpointId, SocketAddr>,
    addrToPeer: map<SocketAddr, EndpointId>,
    nextHost: nat,
    routes: map<SocketAddr, RouteWire>,
    channels: map<nat, ChannelEntry>,
    newChannels: seq<(nat, ChannelWire)>,
    nextChannelId: nat,
    relayOutbound: seq<RelayItem>,
    udpOutbound: seq<UdpItem>,
    channelOutbound: seq<ChannelItem>)

  function NewRoutes(): Routes {
    Routes(map[], map[], 0, map[], map[], [], 0, [], [], [])
  }

  // ----- the operations of `State` -----

  function AddrForPeer(r: Routes, peer: EndpointId, via: nat): (Routes, SocketAddr) {
    if peer in r.peerToAddr then (r, r.peerToAddr[peer])
    else
      var host := r.nextHost + 1;
      var addr := DocPrefixAddr(STANDIN_SPACE, host);
      (r.(nextHost := host,
          peerToAddr := r.peerToAddr[peer := addr],
          addrToPeer := r.addrToPeer[addr := peer],
          routes := r.routes[addr := Relay(via)]),
       addr)
  }

  function RegisterChannel(r: Routes, peer: EndpointId, wire: ChannelWire, fallback: nat): Routes {
    var id := r.nextChannelId + 1;
    var r1 := r.(nextChannelId := id,
                 channels := r.channels[id := ChannelEntry(wire, peer, fallback)],
                 newChannels := r.newChannels + [(id, wire)]);
    var (r2, synthetic) := AddrForPeer(r1, peer, fallback);
    r2.(routes := r2.routes[synthetic := Channel(id)])
  }

  function RetireChannel(r: Routes, id: nat): Routes {
    if id !in r.channels then r
    else
      var entry := r.channels[id];
      var r1 := r.(channels := r.channels - {id});
      if entry.peer in r1.peerToAddr
         && r1.peerToAddr[entry.peer] in r1.routes
         && r1.routes[r1.peerToAddr[entry.peer]] == Channel(id)
      then r1.(routes := r1.routes[r1.peerToAddr[entry.peer] := Relay(entry.fallbackRelay)])
      else r1
  }

  /** Every routed address has an owner, so the owner lookup in `drain` cannot panic. */
  predicate RoutesAreOwned(r: Routes) {
    forall a :: a in r.routes ==> a in r.addrToPeer
  }

  /** One transmit of `drain`: by the standin's current wire, or to the UDP socket. */
  function RouteTransmit(r: Routes, destination: SocketAddr, contents: seq<byte>): Routes
    requires RoutesAreOwned(r)
  {
    var packet := Quic(destination, contents);
    if destination in r.routes then
      match r.routes[destination]
      case Relay(key) =>
        r.(relayOutbound := r.relayOutbound + [RelayItem(key, r.addrToPeer[destination], packet)])
      case Channel(id) =>
        r.(channelOutbound := r.channelOutbound + [ChannelItem(id, packet)])
    else
      r.(udpOutbound := r.udpOutbound + [UdpItem(destination, packet)])
  }

  /** An endpoint-level response, back where the datagram came from. */
  function PushResponse(r: Routes, addr: SocketAddr, source: Option<EndpointId>, contents: seq<byte>): Routes {
    var packet := Quic(addr, contents);
    if addr in r.routes && r.routes[addr].Relay? && source.Some? then
      r.(relayOutbound := r.relayOutbound + [RelayItem(r.routes[addr].key, source.value, packet)])
    else if addr in r.routes && r.routes[addr].Channel? then
      r.(channelOutbound := r.channelOutbound + [ChannelItem(r.routes[addr].id, packet)])
    else
      r.(udpOutbound := r.udpOutbound + [UdpItem(addr, packet)])
  }

  function PushSignal(r: Routes, relay: nat, peer: EndpointId, contents: seq<byte>): Routes {
    r.(relayOutbound := r.relayOutbound + [RelayItem(relay, peer, Signal(peer, contents))])
  }

  /** An explicit dial moves a relay-routed standin to the dialed relay; a channel route stays. */
  function DialStandin(r: Routes, peer: EndpointId, dialKey: nat): (Routes, SocketAddr) {
    var (r1, standin) := AddrForPeer(r, peer, dialKey);
    if standin in r1.routes && r1.routes[standin].Relay? then
      (r1.(routes := r1.routes[standin := Relay(dialKey)]), standin)
    else (r1, standin)
  }

  datatype PathKind = RelayPath | WebrtcPath | IpPath

  function CurrentPath(r: Routes, remote: SocketAddr): PathKind {
    if remote in r.routes then
      if r.routes[remote].Channel? then WebrtcPath else RelayPath
    else IpPath
  }

  // ----- what every step keeps -----

  /** `peerToAddr` and `addrToPeer` are inverse; every standin was minted by the
      counter; exactly the standins are routed. */
  ghost predicate AddressBook(r: Routes) {
    && (forall p :: p in r.peerToAddr ==> r.peerToAddr[p] in r.addrToPeer && r.addrToPeer[r.peerToAddr[p]] == p)
    && (forall a :: a in r.addrToPeer ==> r.addrToPeer[a] in r.peerToAddr && r.peerToAddr[r.addrToPeer[a]] == a)
    && (forall a :: a in r.addrToPeer ==> IsStandin(a) && 1 <= HostOf(a) <= r.nextHost)
    && r.routes.Keys == r.addrToPeer.Keys
  }

  /** A route onto a channel names a live channel of the standin's own peer, and
      a channel's wire ends at the peer it is registered for. */
  ghost predicate ChannelTable(r: Routes) {
    && (forall a :: a in r.routes && r.routes[a].Channel? ==>
          r.routes[a].id in r.channels && a in r.addrToPeer && r.channels[r.routes[a].id].peer == r.addrToPeer[a])
    && (forall id :: id in r.channels ==> 1 <= id <= r.nextChannelId && r.channels[id].wire.farEnd == r.channels[id].peer)
  }

  ghost predicate RelayItemOk(r: Routes, it: RelayItem) {
    match it.packet
    case Quic(a, _) => a in r.addrToPeer && r.addrToPeer[a] == it.peer
    case Signal(to, _) => to == it.peer
  }

  /** A queued channel datagram's channel, while it lives, is the addressee's. */
  ghost predicate ChannelItemOk(r: Routes, it: ChannelItem) {
    && it.packet.Quic?
    && it.packet.destination in r.addrToPeer
    && it.id <= r.nextChannelId
    && (it.id in r.channels ==> r.channels[it.id].peer == r.addrToPeer[it.packet.destination])
  }

  ghost predicate UdpItemOk(it: UdpItem) {
    it.packet.Quic? && it.packet.destination == it.remote && !IsStandin(it.remote)
  }

  ghost predicate Queues(r: Routes) {
    && (forall it :: it in r.relayOutbound ==> RelayItemOk(r, it))
    && (forall it :: it in r.channelOutbound ==> ChannelItemOk(r, it))
    && (forall it :: it in r.udpOutbound ==> UdpItemOk(it))
  }

  ghost predicate RoutesInv(r: Routes) {
    AddressBook(r) && ChannelTable(r) && Queues(r)
  }

  /** Standins are never renamed or handed to another peer. */
  ghost predicate BookGrows(r: Routes, s: Routes) {
    && (forall a :: a in r.addrToPeer ==> a in s.addrToPeer && s.addrToPeer[a] == r.addrToPeer[a])
    && (forall p :: p in r.peerToAddr ==> p in s.peerToAddr && s.peerToAddr[p] == r.peerToAddr[p])
  }

  /** Queued items stay well addressed while the book grows and no old channel
      id comes to name another peer. */
  lemma QueuesFrame(r: Routes, s: Routes)
    requires Queues(r) && BookGrows(r, s)
    requires forall it :: it in s.relayOutbound ==> it in r.relayOutbound
    requires forall it :: it in s.channelOutbound ==> it in r.channelOutbound
    requires forall it :: it in s.udpOutbound ==> it in r.udpOutbound
    requires r.nextChannelId <= s.nextChannelId
    requires forall id :: id in s.channels && id <= r.nextChannelId ==> id in r.channels && s.channels[id].peer == r.channels[id].peer
    ensures Queues(s)
  {
    forall it | it in s.relayOutbound ensures RelayItemOk(s, it) {
      assert RelayItemOk(r, it);
    }
    forall it | it in s.channelOutbound ensures ChannelItemOk(s, it) {
      assert ChannelItemOk(r, it);
    }
  }

  lemma AddrForPeerBook(r: Routes, peer: EndpointId, via: nat)
    requires AddressBook(r) && r.nextHost + 1 < U32_LIMIT
    ensures AddressBook(AddrForPeer(r, peer, via).0)
  {
    if peer !in r.peerToAddr {
      FreshStandin(r);
      hide DocPrefixAddr;
    }
  }

  lemma AddrForPeerGrows(r: Routes, peer: EndpointId, via: nat)
    requires AddressBook(r) && r.nextHost + 1 < U32_LIMIT
    ensures
      var (s, addr) := AddrForPeer(r, peer, via);
      && BookGrows(r, s)
      && addr in s.addrToPeer && s.addrToPeer[addr] == peer && peer in s.peerToAddr && s.peerToAddr[peer] == addr
      && (forall a :: a in r.routes ==> a in s.routes && s.routes[a] == r.routes[a])
      && (forall a :: a in s.routes && a !in r.routes ==> s.routes[a] == Relay(via))
  {
    if peer !in r.peerToAddr {
      FreshStandin(r);
      hide DocPrefixAddr, IsStandin;
    }
  }

  /** The counter's next standin is one nobody has yet. */
  lemma FreshStandin(r: Routes)
    requires AddressBook(r) && r.nextHost + 1 < U32_LIMIT
    ensures
      var addr := DocPrefixAddr(STANDIN_SPACE, r.nextHost + 1);
      addr !in r.addrToPeer && addr !in r.routes && IsStandin(addr) && HostOf(addr) == r.nextHost + 1
  {
    StandinsAreDistinct(r.nextHost + 1);
  }

  lemma AddrForPeerKeeps(r: Routes, peer: EndpointId, via: nat)
    requires RoutesInv(r) && r.nextHost + 1 < U32_LIMIT
    ensures
      var (s, addr) := AddrForPeer(r, peer, via);
      && RoutesInv(s) && BookGrows(r, s)
      && addr in s.addrToPeer && s.addrToPeer[addr] == peer && peer in s.peerToAddr && s.peerToAddr[peer] == addr
      && s.channels == r.channels && s.nextChannelId == r.nextChannelId
  {
    AddrForPeerBook(r, peer, via);
    AddrForPeerGrows(r, peer, via);
    hide DocPrefixAddr, Queues, IsStandin;
    var (s, addr) := AddrForPeer(r, peer, via);
    QueuesFrame(r, s);
    assert ChannelTable(s) by {
      hide AddrForPeer;
    }
    hide AddressBook, BookGrows, ChannelTable;
  }

  lemma AddChannelKeeps(r: Routes, entry: ChannelEntry, newChannels: seq<(nat, ChannelWire)>)
    requires RoutesInv(r) && entry.wire.farEnd == entry.peer
    ensures
      var id := r.nextChannelId + 1;
      var s := r.(nextChannelId := id, channels := r.channels[id := entry], newChannels := newChannels);
      RoutesInv(s) && BookGrows(r, s)
  {
    var id := r.nextChannelId + 1;
    var s := r.(nextChannelId := id, channels := r.channels[id := entry], newChannels := newChannels);
    QueuesFrame(r, s);
    hide Queues;
  }

  lemma RegisterChannelKeeps(r: Routes, peer: EndpointId, wire: ChannelWire, fallback: nat)
    requires RoutesInv(r) && r.nextHost + 1 < U32_LIMIT && wire.farEnd == peer
    ensures
      var s := RegisterChannel(r, peer, wire, fallback);
      && RoutesInv(s) && BookGrows(r, s)
      && peer in s.peerToAddr && s.peerToAddr[peer] in s.routes
      && s.routes[s.peerToAddr[peer]] == Channel(r.nextChannelId + 1)
  {
    hide AddressBook, ChannelTable, Queues, BookGrows, AddrForPeer;
    var id, entry := r.nextChannelId + 1, ChannelEntry(wire, peer, fallback);
    AddChannelKeeps(r, entry, r.newChannels + [(id, wire)]);
    var r1 := r.(nextChannelId := id, channels := r.channels[id := entry], newChannels := r.newChannels + [(id, wire)]);
    AddrForPeerKeeps(r1, peer, fallback);
    var (r2, synthetic) := AddrForPeer(r1, peer, fallback);
    MoveRouteKeeps(r2, synthetic, Channel(id));
    BookGrowsOn(r, r1, r2);
    BookGrowsOn(r, r2, r2.(routes := r2.routes[synthetic := Channel(id)]));
  }

  lemma BookGrowsOn(r: Routes, s: Routes, t: Routes)
    requires BookGrows(r, s) && BookGrows(s, t)
    ensures BookGrows(r, t)
  {
  }

  /** A standin's route may move to any relay, or to a live channel of its peer. */
  lemma MoveRouteKeeps(r: Routes, standin: SocketAddr, wire: RouteWire)
    requires RoutesInv(r) && standin in r.addrToPeer
    requires wire.Channel? ==> wire.id in r.channels && r.channels[wire.id].peer == r.addrToPeer[standin]
    ensures var s := r.(routes := r.routes[standin := wire]); RoutesInv(s) && BookGrows(r, s)
  {
    var s := r.(routes := r.routes[standin := wire]);
    QueuesFrame(r, s);
  }

  /** Exactly the standin routed over the channel, if any, moves to the fallback relay. */
  lemma RetireChannelRoutes(r: Routes, id: nat)
    requires AddressBook(r) && ChannelTable(r)
    ensures
      var s := RetireChannel(r, id);
      && s.routes.Keys == r.routes.Keys
      && forall a :: a in r.routes ==>
           s.routes[a] == if r.routes[a] == Channel(id) then Relay(r.channels[id].fallbackRelay) else r.routes[a]
  {
    hide IsStandin;
  }

  lemma RetireChannelKeeps(r: Routes, id: nat)
    requires RoutesInv(r)
    ensures
      var s := RetireChannel(r, id);
      && RoutesInv(s) && BookGrows(r, s)
      && id !in s.channels && s.nextChannelId == r.nextChannelId
  {
    hide AddressBook, ChannelTable, Queues;
    var s := RetireChannel(r, id);
    RetireChannelTable(r, id);
    assert s == r.(channels := r.channels - {id}, routes := s.routes);
    hide RetireChannel;
    QueuesFrame(r, s);
  }

  lemma RetireChannelTable(r: Routes, id: nat)
    requires AddressBook(r) && ChannelTable(r)
    ensures AddressBook(RetireChannel(r, id)) && ChannelTable(RetireChannel(r, id))
  {
    RetireChannelRoutes(r, id);
    hide IsStandin;
    var s := RetireChannel(r, id);
    assert s.channels == r.channels - {id};
    assert AddressBook(s);
    forall a | a in s.routes && s.routes[a].Channel?
      ensures s.routes[a].id in s.channels && a in s.addrToPeer && s.channels[s.routes[a].id].peer == s.addrToPeer[a]
    {
      assert r.routes[a] == s.routes[a];
    }
  }

  lemma RouteTransmitKeeps(r: Routes, destination: SocketAddr, contents: seq<byte>)
    requires RoutesInv(r)
    requires IsStandin(destination) ==> destination in r.addrToPeer
    ensures var s := RouteTransmit(r, destination, contents); RoutesInv(s) && BookGrows(r, s)
  {
  }

  lemma PushResponseKeeps(r: Routes, addr: SocketAddr, source: Option<EndpointId>, contents: seq<byte>)
    requires RoutesInv(r)
    requires match source
             case Some(peer) => addr in r.addrToPeer && r.addrToPeer[addr] == peer
             case None => !IsStandin(addr)
    ensures var s := PushResponse(r, addr, source, contents); RoutesInv(s) && BookGrows(r, s)
  {
  }

  lemma DialStandinKeeps(r: Routes, peer: EndpointId, dialKey: nat)
    requires RoutesInv(r) && r.nextHost + 1 < U32_LIMIT
    ensures
      var (s, standin) := DialStandin(r, peer, dialKey);
      && RoutesInv(s) && BookGrows(r, s)
      && standin in s.addrToPeer && s.addrToPeer[standin] == peer
  {
    hide AddressBook, ChannelTable, Queues, BookGrows, AddrForPeer;
    AddrForPeerKeeps(r, peer, dialKey);
    var (r1, standin) := AddrForPeer(r, peer, dialKey);
    MoveRouteKeeps(r1, standin, Relay(dialKey));
    BookGrowsOn(r, r1, r1.(routes := r1.routes[standin := Relay(dialKey)]));
  }

  /** A dial moves the peer's standin to the dialed relay exactly while no channel
      carries it, and no other route; a first dial routes its new standin there. */
  lemma DialStandinRoutes(r: Routes, peer: EndpointId, dialKey: nat)
    requires AddressBook(r) && r.nextHost + 1 < U32_LIMIT
    ensures
      var (s, standin) := DialStandin(r, peer, dialKey);
      && s.routes.Keys == r.routes.Keys + {standin}
      && (standin in r.routes <==> peer in r.peerToAddr)
      && (standin in r.routes && r.routes[standin].Channel? ==> s.routes[standin] == r.routes[standin])
      && (standin !in r.routes || r.routes[standin].Relay? ==> s.routes[standin] == Relay(dialKey))
      && forall a :: a in r.routes && a != standin ==> s.routes[a] == r.routes[a]
  {
    FreshStandin(r);
    hide DocPrefixAddr, IsStandin;
  }

  /** `current-path` names the queue the next transmit to that remote joins. */
  lemma CurrentPathIsTheNextWire(r: Routes, remote: SocketAddr, contents: seq<byte>)
    requires RoutesInv(r)
    ensures
      var s := RouteTransmit(r, remote, contents);
      var kind := CurrentPath(r, remote);
      && (kind == WebrtcPath <==> |s.channelOutbound| == |r.channelOutbound| + 1)
      && (kind == RelayPath <==> |s.relayOutbound| == |r.relayOutbound| + 1)
      && (kind == IpPath <==> |s.udpOutbound| == |r.udpOutbound| + 1)
      && |s.channelOutbound| + |s.relayOutbound| + |s.udpOutbound|
         == |r.channelOutbound| + |r.relayOutbound| + |r.udpOutbound| + 1
  {
  }

  // ----- what leaves the endpoint -----

  datatype WireSend =
    | OnRelay(conn: nat, peer: EndpointId, packet: Packet)
    | OnChannel(wire: ChannelWire, packet: Packet)
    | OnUdp(remote: SocketAddr, packet: Packet)

  /** The wire's far end is the owner of the standin the datagram was addressed
      to; a datagram for a real address goes to that address; a signal goes, by
      relay, to the peer it was published to. */
  ghost predicate ReachesItsPeer(r: Routes, w: WireSend) {
    match w
    case OnRelay(_, peer, Quic(a, _)) => a in r.addrToPeer && r.addrToPeer[a] == peer
    case OnRelay(_, peer, Signal(to, _)) => to == peer
    case OnChannel(wire, Quic(a, _)) => a in r.addrToPeer && r.addrToPeer[a] == wire.farEnd
    case OnUdp(remote, Quic(a, _)) => a == remote && !IsStandin(a)
    case _ => false
  }

  function PopRelay(r: Routes, pool: map<nat, nat>): (Routes, Option<WireSend>)
    requires r.relayOutbound != []
  {
    var it := r.relayOutbound[0];
    (r.(relayOutbound := r.relayOutbound[1..]),
     if it.key in pool then Some(OnRelay(pool[it.key], it.peer, it.packet)) else None)
  }

  function PopChannel(r: Routes): (Routes, Option<WireSend>)
    requires r.channelOutbound != []
  {
    var it := r.channelOutbound[0];
    (r.(channelOutbound := r.channelOutbound[1..]),
     if it.id in r.channels then Some(OnChannel(r.channels[it.id].wire, it.packet)) else None)
  }

  function PopUdp(r: Routes, bound: bool): (Routes, Option<WireSend>)
    requires r.udpOutbound != []
  {
    var it := r.udpOutbound[0];
    (r.(udpOutbound := r.udpOutbound[1..]), if bound then Some(OnUdp(it.remote, it.packet)) else None)
  }

  lemma PopRelayReaches(r: Routes, pool: map<nat, nat>)
    requires RoutesInv(r) && r.relayOutbound != []
    ensures
      var (s, w) := PopRelay(r, pool);
      RoutesInv(s) && BookGrows(r, s) && (w.Some? ==> ReachesItsPeer(s, w.value))
  {
    QueuesFrame(r, PopRelay(r, pool).0);
    assert RelayItemOk(r, r.relayOutbound[0]);
  }

  lemma PopChannelReaches(r: Routes)
    requires RoutesInv(r) && r.channelOutbound != []
    ensures
      var (s, w) := PopChannel(r);
      RoutesInv(s) && BookGrows(r, s) && (w.Some? ==> ReachesItsPeer(s, w.value))
  {
    QueuesFrame(r, PopChannel(r).0);
    assert ChannelItemOk(r, r.channelOutbound[0]);
  }

  lemma PopUdpReaches(r: Routes, bound: bool)
    requires RoutesInv(r) && r.udpOutbound != []
    ensures
      var (s, w) := PopUdp(r, bound);
      RoutesInv(s) && BookGrows(r, s) && (w.Some? ==> ReachesItsPeer(s, w.value))
  {
    QueuesFrame(r, PopUdp(r, bound).0);
    assert UdpItemOk(r.udpOutbound[0]);
  }

  /** What reached its peer once counts as having reached it for good. */
  lemma ReachedForGood(r: Routes, s: Routes, w: WireSend)
    requires ReachesItsPeer(r, w) && BookGrows(r, s)
    ensures ReachesItsPeer(s, w)
  {
  }
}

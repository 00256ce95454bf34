/** Runs from `bind` that show where the code does not keep what it says. */
module RuntimeExamples {
  import opened Types
  import opened Routing
  import opened Wakeups
  import opened Runtime
  import opened RuntimeSafety
  import R = RelayPool
  import G = Signaling
  import C = Connections
  import Q = StreamCalls
  import V = RecvStreams

  // ----- turns with nothing to send -----

  ghost predicate NothingQueued(r: Routes) {
    r.relayOutbound == [] && r.udpOutbound == [] && r.channelOutbound == []
  }

  function QuietFlush(): seq<Event> {
    [Flush(RelayTurn), Flush(UdpTurn), Flush(ChannelTurn), Flush(ArmTurn(false))]
  }

  /** With nothing to send, the flush arms what was registered and reaches the select. */
  lemma QuietFlushArms(s: System)
    requires s.pc.FlushRelay? && NothingQueued(s.routes) && !s.relays.closed
    ensures IsRun(s, QuietFlush())
    ensures After(s, QuietFlush()) == ArmStep(s.(pc := Arming), false)
  {
    var s2 := s.(pc := FlushUdp);
    assert Apply(s, Flush(RelayTurn)) == s2;
    var s3 := s2.(pc := FlushChannel);
    assert Apply(s2, Flush(UdpTurn)) == s3;
    var s4 := s3.(pc := Arming);
    assert Apply(s3, Flush(ChannelTurn)) == s4;
    RunOfOne(s4, Flush(ArmTurn(false)));
    var q := QuietFlush();
    assert q[3..] == [Flush(ArmTurn(false))];
    assert q[2..][1..] == q[3..] && q[1..][1..] == q[2..];
    hide Apply, ArmStep;
    assert IsRun(s3, q[2..]) && IsRun(s2, q[1..]);
  }

  /** Arming touches neither the wakers of an open endpoint nor its connections and queues. */
  lemma Armed(s: System)
    requires !s.relays.closed && NothingQueued(s.routes)
    ensures
      var t := ArmStep(s.(pc := Arming), false);
      && t.pc.Selecting? && t.wake == s.wake && t.owners == s.owners && t.forceWake == s.forceWake && t.dirty == s.dirty
      && t.routes == s.routes.(newChannels := []) && t.sessions == G.SpawnUpgrades(s.sessions)
      && t.relays == R.Apply(s.relays, R.Armed)
  {
    hide NewIds, C.AllSettled, R.Apply;
    assert R.Apply(s.relays, R.Armed).closed == s.relays.closed by {
      ArmedStaysOpen(s.relays);
    }
  }

  lemma ArmedStaysOpen(s: R.Relays)
    ensures R.Apply(s, R.Armed).closed == s.closed
  {
  }

  // ----- the input for which the pump sleeps on work -----

  const REF := C.Ref(0, 0)

  function DialOf(peer: EndpointId): Event { Task(Connect(peer, None, HOME_RELAY, None, Some(0))) }

  /** A read of 9 bytes that finds the stream reset with code 7, and credit freed. */
  function ResetRead(): Event {
    Task(StreamCall(REF, Q.ReadPolled(V.NoqRecv([], 0, false, Some(7), false, false), 9, Present(None), V.ResetBy(7), true)))
  }

  /** The dialed connection's entry as the code finds it. */
  ghost predicate Dialing(s: System, peer: EndpointId) {
    && NothingQueued(s.routes) && RoutesAreOwned(s.routes) && !s.relays.closed && !s.forceWake
    && C.EntryFor(s.owners.conns, REF) == Some(C.ConnEntry(0, Some(peer), None, false, false, None, false, false))
    && REF in s.owners.guards
  }

  ghost predicate Connected(s: System) {
    && NothingQueued(s.routes) && !s.relays.closed
    && C.EntryFor(s.owners.conns, REF).Some?
    && C.EntryFor(s.owners.conns, REF).value.connected && C.EntryFor(s.owners.conns, REF).value.error == None
    && REF in s.owners.guards
  }

  lemma DialStarts(s: System, peer: EndpointId)
    requires NothingQueued(s.routes) && !s.relays.closed && !s.forceWake && s.owners == C.NoConns()
    requires s.routes.routes == map[] && s.routes.addrToPeer == map[] && s.routes.peerToAddr == map[] && s.routes.nextHost == 0
    ensures Enabled(s, DialOf(peer))
    ensures var t := Apply(s, DialOf(peer)); Dialing(t, peer) && t.pc == s.pc && t.wake == KickPump(s.wake)
  {
  }

  lemma DialConnects(s: System, peer: EndpointId)
    requires Dialing(s, peer) && s.pc.TurnTop?
    ensures
      var e := Flush(Turn([ConnectedEvent(0, Some(peer))]));
      && Enabled(s, e)
      && var t := Apply(s, e);
         Connected(t) && t.pc.FlushRelay? && !t.dirty && t.wake == WakeWaiters(s.wake)
  {
    var outs := [ConnectedEvent(0, Some(peer))];
    assert outs[..0] == [];
    assert DrainAllOwners(s.owners, s.routes, outs[..0]) == s.owners;
    assert OutputsFit(s.owners, s.routes, outs[..0]);
    assert OutputFits(s.owners, s.routes, outs[0]);
    assert OutputsFit(s.owners, s.routes, outs);
    assert DrainAllOwners(s.owners, s.routes, outs) == C.Apply(s.owners, C.Connected(0, Some(peer)));
    assert DrainAllRoutes(s.routes, outs) == s.routes;
  }

  lemma DialResolves(s: System)
    requires Connected(s)
    ensures
      var e := Task(Owner(C.DialPolled(REF)));
      && Enabled(s, e)
      && var t := Apply(s, e);
         t.owners.conns == s.owners.conns && t.wake == s.wake && t.pc == s.pc && t.dirty == s.dirty && REF in t.owners.resources
  {
  }

  function DialAndFlush(peer: EndpointId): seq<Event> {
    [DialOf(peer)] + [Flush(Turn([]))] + QuietFlush() + [Select(KickReady)]
  }

  lemma DialAndFlushFlushes(homeUrl: R.Url, now: Instant, peer: EndpointId)
    ensures IsRun(Bind(homeUrl, now, false, false), DialAndFlush(peer))
    ensures
      var t := After(Bind(homeUrl, now, false, false), DialAndFlush(peer));
      Dialing(t, peer) && t.pc.TurnTop? && !t.wake.pumpReady && !t.wake.pumpKicked
  {
    hide R.Normalize;
    var s0 := Bind(homeUrl, now, false, false);
    DialStarts(s0, peer);
    RunOfOne(s0, DialOf(peer));
    assert After(s0, [DialOf(peer)]).wake == KickPump(KickPump(NoWakers()));
    hide Bind, DialOf, Dialing;
    FlushesQuietly(s0, [DialOf(peer)], peer);
    var xs := [DialOf(peer)] + [Flush(Turn([]))] + QuietFlush();
    RunExtends(s0, xs, Select(KickReady));
    KickKeepsDialing(After(s0, xs), peer);
  }

  lemma KickKeepsDialing(s: System, peer: EndpointId)
    requires Dialing(s, peer) && SelectEnabled(s, KickReady)
    ensures Dialing(SelectApply(s, KickReady), peer)
  {
  }

  function ConnectAndFlush(peer: EndpointId): seq<Event> {
    [Flush(Turn([ConnectedEvent(0, Some(peer))]))] + QuietFlush() + [Task(Owner(C.DialPolled(REF)))]
  }

  lemma ConnectAndFlushFlushes(s: System, peer: EndpointId)
    requires Dialing(s, peer) && s.pc.TurnTop? && !s.wake.pumpReady && !s.wake.pumpKicked
    ensures IsRun(s, ConnectAndFlush(peer))
    ensures
      var t := After(s, ConnectAndFlush(peer));
      && t.pc.Selecting? && !t.wake.pumpReady && !t.wake.pumpKicked && !t.dirty && REF in t.owners.resources
      && C.EntryFor(t.owners.conns, REF).Some? && C.EntryFor(t.owners.conns, REF).value.error == None
  {
    var ce := Flush(Turn([ConnectedEvent(0, Some(peer))]));
    DialConnects(s, peer);
    RunOfOne(s, ce);
    var s1 := Apply(s, ce);
    QuietFlushArms(s1);
    Armed(s1);
    ArmedStaysOpen(s1.relays);
    RunsJoin(s, [ce], QuietFlush());
    var s2 := After(s1, QuietFlush());
    DialResolves(s2);
    hide Dialing, Apply, QuietFlush, Enabled;
    RunExtends(s, [ce] + QuietFlush(), Task(Owner(C.DialPolled(REF))));
  }

  /** Right after `bind` the endpoint dials `peer`, the handshake completes, the
      dial resolves, and the pump parks. */
  function DialAndPark(peer: EndpointId): seq<Event> {
    DialAndFlush(peer) + ConnectAndFlush(peer) + [Select(Park)]
  }

  lemma DialAndParkParks(homeUrl: R.Url, now: Instant, peer: EndpointId)
    ensures IsRun(Bind(homeUrl, now, false, false), DialAndPark(peer))
    ensures
      var t := After(Bind(homeUrl, now, false, false), DialAndPark(peer));
      && t.pc.Parked? && !t.wake.pumpReady && !t.wake.pumpKicked && t.wake.pumpWaker && !t.dirty
      && C.EntryFor(t.owners.conns, REF).Some? && C.EntryFor(t.owners.conns, REF).value.error == None
      && REF in t.owners.resources
  {
    var s := Bind(homeUrl, now, false, false);
    hide Bind, Dialing, DialAndFlush, ConnectAndFlush;
    DialAndFlushFlushes(homeUrl, now, peer);
    ConnectAndFlushFlushes(After(s, DialAndFlush(peer)), peer);
    RunsJoin(s, DialAndFlush(peer), ConnectAndFlush(peer));
    RunExtends(s, DialAndFlush(peer) + ConnectAndFlush(peer), Select(Park));
  }

  lemma FlushesQuietly(s: System, es: seq<Event>, peer: EndpointId)
    requires IsRun(s, es) && After(s, es).pc.TurnTop? && Dialing(After(s, es), peer)
    ensures IsRun(s, es + [Flush(Turn([]))] + QuietFlush())
    ensures
      var u, t := After(s, es), After(s, es + [Flush(Turn([]))] + QuietFlush());
      t.pc.Selecting? && t.wake == u.wake && !t.dirty && Dialing(t, peer)
  {
    var u := After(s, es);
    assert Apply(u, Flush(Turn([]))) == u.(dirty := false, resetUnflushed := false, pc := FlushRelay);
    RunExtends(s, es, Flush(Turn([])));
    var v := u.(dirty := false, resetUnflushed := false, pc := FlushRelay);
    QuietFlushArms(v);
    Armed(v);
    ArmedStaysOpen(v.relays);
    RunsJoin(s, es + [Flush(Turn([]))], QuietFlush());
    hide QuietFlush;
  }

  /** After that read of a RESET the parked pump is not woken, and noq waits with
      credit to send. */
  lemma ResetReadExample(homeUrl: R.Url, now: Instant, peer: EndpointId)
    ensures
      var es := DialAndPark(peer) + [ResetRead()];
      && IsRun(Bind(homeUrl, now, false, false), es)
      && var t := After(Bind(homeUrl, now, false, false), es);
         t.pc.Parked? && !t.wake.pumpReady && !t.wake.pumpKicked && t.dirty
  {
    var s := Bind(homeUrl, now, false, false);
    DialAndParkParks(homeUrl, now, peer);
    hide Bind, DialAndPark;
    RunExtends(s, DialAndPark(peer), ResetRead());
  }

  // ----- the input for which a channel forgets its relay -----

  /** A foreign relay is opened for `url`; `peer` is dialed with an upgrade hint
      through it, and the pump's next turn spawns the upgrade. */
  function DialWithHint(url: R.Url, peer: EndpointId): seq<Event> {
    [Task(Dialer(R.EnsureCalled(0, url)))] + [Task(Dialer(R.DialResolved(0, true)))]
    + [Task(Connect(peer, None, HOME_RELAY, Some(1), Some(0)))]
  }

  lemma HintIsQueued(homeUrl: R.Url, url: R.Url, now: Instant, peer: EndpointId)
    requires R.Normalize(url) != R.Normalize(homeUrl)
    ensures IsRun(Bind(homeUrl, now, true, false), DialWithHint(url, peer))
    ensures
      var t := After(Bind(homeUrl, now, true, false), DialWithHint(url, peer));
      && t.pc.TurnTop? && NothingQueued(t.routes) && RoutesAreOwned(t.routes) && !t.relays.closed && !t.forceWake
      && t.relays.pool.keys == map[R.Normalize(homeUrl) := HOME_RELAY, R.Normalize(url) := 1]
      && t.sessions == G.RequestUpgrade(G.NoSessions(true), peer, 1)
      && t.routes.nextHost == 1 && t.routes.nextChannelId == 0 && peer in t.routes.peerToAddr
  {
    hide R.Normalize;
    var s0 := Bind(homeUrl, now, true, false);
    var e1, e2 := Task(Dialer(R.EnsureCalled(0, url))), Task(Dialer(R.DialResolved(0, true)));
    var e3 := Task(Connect(peer, None, HOME_RELAY, Some(1), Some(0)));
    RunOfOne(s0, e1);
    var s1 := Apply(s0, e1);
    assert s1.relays.dialers == map[0 := R.Dialing(url)];
    RunExtends(s0, [e1], e2);
    var s2 := Apply(s1, e2);
    RunExtends(s0, [e1] + [e2], e3);
  }

  function OfferAndOpen(peer: EndpointId, wire: ChannelWire): seq<Event> {
    [Flush(Turn([]))] + QuietFlush() + [Task(UpgradeBegins(peer, 1))] + [Task(ChannelOpens(0, wire))]
  }

  lemma HintIsSpawned(s: System, peer: EndpointId)
    requires s.pc.TurnTop? && NothingQueued(s.routes) && RoutesAreOwned(s.routes) && !s.relays.closed && !s.forceWake
    requires s.sessions == G.RequestUpgrade(G.NoSessions(true), peer, 1)
    ensures IsRun(s, [Flush(Turn([]))] + QuietFlush())
    ensures
      var t := After(s, [Flush(Turn([]))] + QuietFlush());
      && t.routes == s.routes.(newChannels := []) && !t.relays.closed
      && t.sessions == G.NoSessions(true).(spawned := multiset{(peer, 1)})
  {
    assert Apply(s, Flush(Turn([]))) == s.(dirty := false, resetUnflushed := false, pc := FlushRelay);
    RunOfOne(s, Flush(Turn([])));
    var v := s.(dirty := false, resetUnflushed := false, pc := FlushRelay);
    QuietFlushArms(v);
    Armed(v);
    ArmedStaysOpen(v.relays);
    RunsJoin(s, [Flush(Turn([]))], QuietFlush());
    assert multiset([(peer, 1)]) == multiset{(peer, 1)};
    hide QuietFlush;
  }

  lemma OffererOpens(s: System, peer: EndpointId, wire: ChannelWire)
    requires s.routes.nextHost == 1 && s.routes.nextChannelId == 0 && !s.relays.closed && wire.farEnd == peer
    requires s.sessions == G.NoSessions(true).(spawned := multiset{(peer, 1)})
    ensures
      var e1, e2 := Task(UpgradeBegins(peer, 1)), Task(ChannelOpens(0, wire));
      && Enabled(s, e1)
      && var t := Apply(s, e1);
         && t.sessions.live == map[0 := G.Session(peer, G.Offerer, 1, [], [])]
         && Enabled(t, e2)
         && var u := Apply(t, e2);
            1 in u.routes.channels && u.routes.channels[1] == ChannelEntry(wire, peer, HOME_RELAY)
  {
  }

  /** In the endpoint just bound, for any foreign relay and any peer: a session
      that signals through that relay, key 1, opens a channel whose recorded
      fallback is the home relay. */
  lemma OffererFallbackExample(homeUrl: R.Url, url: R.Url, now: Instant, peer: EndpointId, wire: ChannelWire)
    requires R.Normalize(url) != R.Normalize(homeUrl) && wire.farEnd == peer
    ensures
      var es := DialWithHint(url, peer) + OfferAndOpen(peer, wire);
      && IsRun(Bind(homeUrl, now, true, false), es)
      && var t := After(Bind(homeUrl, now, true, false), es);
         1 in t.routes.channels && t.routes.channels[1] == ChannelEntry(wire, peer, HOME_RELAY)
  {
    var s := Bind(homeUrl, now, true, false);
    HintIsQueued(homeUrl, url, now, peer);
    hide Bind, DialWithHint, QuietFlush;
    var xs := DialWithHint(url, peer);
    var turn := [Flush(Turn([]))] + QuietFlush();
    HintIsSpawned(After(s, xs), peer);
    RunsJoin(s, xs, turn);
    var t := After(s, xs + turn);
    OffererOpens(t, peer, wire);
    var e1, e2 := Task(UpgradeBegins(peer, 1)), Task(ChannelOpens(0, wire));
    hide Apply, Enabled;
    RunExtends(s, xs + turn, e1);
    RunExtends(s, xs + turn + [e1], e2);
    assert xs + turn + [e1] + [e2] == xs + OfferAndOpen(peer, wire);
  }
}

/** Upgrades from their request to their session, and channels from their session
    to their retirement (endpoint/src/endpoint_impl.rs, endpoint/src/webrtc.rs). */
module RuntimeChannels {
  import opened Types
  import opened Routing
  import opened Wakeups
  import opened Runtime
  import opened RuntimeSafety
  import R = RelayPool
  import G = Signaling
  import C = Connections
  import Q = StreamCalls

  /** No old id comes to name another channel, or another fallback. */
  ghost predicate ChannelsStand(r: Routes, s: Routes) {
    && r.nextChannelId <= s.nextChannelId
    && forall id :: id <= r.nextChannelId && id in s.channels ==> id in r.channels && s.channels[id] == r.channels[id]
  }

  /** A channel is registered exactly when a session opens it on an open endpoint. */
  function Registered(s: System, e: Event): nat {
    if e.Task? && e.task.ChannelOpens? && !s.relays.closed then 1 else 0
  }

  lemma RegisteringStands(r: Routes, peer: EndpointId, wire: ChannelWire, fallback: nat)
    ensures ChannelsStand(r, RegisterChannel(r, peer, wire, fallback))
    ensures RegisterChannel(r, peer, wire, fallback).nextChannelId == r.nextChannelId + 1
  {
    hide DocPrefixAddr;
  }

  lemma TaskStands(s: System, e: TaskEvent)
    requires TaskEnabled(s, e)
    ensures ChannelsStand(s.routes, TaskApply(s, e).routes)
    ensures TaskApply(s, e).routes.nextChannelId == s.routes.nextChannelId + Registered(s, Task(e))
  {
    hide C.Apply, RegisterChannel, DialStandin, G.EndSession, G.ChannelFallback;
    match e {
      case ChannelOpens(id, wire) =>
        RegisteringStands(s.routes, s.sessions.live[id].peer, wire, G.ChannelFallback(s.sessions, id));
      case Connect(peer, direct, dialKey, upgradeKey, h) => DialTouchesNoChannel(s.routes, peer, dialKey);
      case Publish(id, payload) =>
      case _ =>
        OtherTasksKeepRoutes(s, e);
        hide TaskApply;
    }
  }

  lemma FlushStands(s: System, e: FlushEvent)
    requires FlushEnabled(s, e)
    ensures ChannelsStand(s.routes, FlushApply(s, e).routes)
    ensures FlushApply(s, e).routes.nextChannelId == s.routes.nextChannelId
  {
    hide R.Apply, DrainAllRoutes, DrainAllOwners, OutputsFit, NewIds, C.AllSettled;
    match e {
      case ArmTurn(lingered) =>
      case Turn(outputs) => DrainTouchesNoChannel(s.routes, outputs);
      case _ =>
        MiddleTouchesNoChannel(s, e);
        hide FlushApply;
    }
  }

  lemma RetiringStands(r: Routes, id: nat)
    ensures ChannelsStand(r, RetireChannel(r, id)) && RetireChannel(r, id).nextChannelId == r.nextChannelId
  {
  }

  lemma RelayReadyStands(s: System, e: SelectEvent)
    requires SelectEnabled(s, e) && e.RelayReady?
    ensures
      var r := RelayReadyStep(s, e.key, e.conn, e.result, e.now, e.spread).routes;
      ChannelsStand(s.routes, r) && r.nextChannelId == s.routes.nextChannelId
  {
    hide R.Apply, R.Enabled, C.Apply, C.Enabled, AddrForPeer, HandleRoutes, G.ReceiveSignal, IsStandin;
    if e.result.GotDatagram? {
      ReceivedKeepsClosed(s.relays, R.Received(e.key, e.conn, true, e.now, e.spread));
      PeerDatagramTouchesNoChannel(s.routes, e.result.source, e.key, s.owners.conns, s.relays.closed, e.result.verdict);
    }
  }

  lemma ChannelReadyStands(s: System, e: SelectEvent)
    requires SelectEnabled(s, e) && e.ChannelReady?
    ensures
      var r := ChannelReadyStep(s, e.id, e.outcome).routes;
      ChannelsStand(s.routes, r) && r.nextChannelId == s.routes.nextChannelId
  {
    hide R.Apply, R.Enabled, C.Apply, C.Enabled, AddrForPeer, HandleRoutes, RetireChannel, IsStandin;
    RetiringStands(s.routes, e.id);
    if e.outcome.ChannelDatagram? && e.id in s.routes.channels {
      var entry := s.routes.channels[e.id];
      PeerDatagramTouchesNoChannel(s.routes, entry.peer, entry.fallbackRelay, s.owners.conns, s.relays.closed, e.outcome.verdict);
    }
  }

  lemma SelectStands(s: System, e: SelectEvent)
    requires SelectEnabled(s, e)
    ensures ChannelsStand(s.routes, SelectApply(s, e).routes)
    ensures SelectApply(s, e).routes.nextChannelId == s.routes.nextChannelId
  {
    hide R.Apply, R.Enabled, C.Apply, C.Enabled, HandleRoutes, Sweep, IsStandin, RelayReadyStep, ChannelReadyStep;
    match e {
      case RelayReady(_, _, _, _, _) => RelayReadyStands(s, e);
      case UdpReady(remote, v) => DatagramTouchesNoChannel(s.routes, s.owners.conns, s.relays.closed, remote, None, v);
      case ChannelReady(_, _) => ChannelReadyStands(s, e);
      case _ =>
    }
  }

  lemma {:induction false} RunStands(s: System, es: seq<Event>)
    requires IsRun(s, es)
    ensures ChannelsStand(s.routes, After(s, es).routes)
    decreases |es|
  {
    hide Apply, Enabled;
    if es != [] {
      StepStands(s, es[0]);
      RunStands(Apply(s, es[0]), es[1..]);
    }
  }

  lemma StepStands(s: System, e: Event)
    requires Enabled(s, e)
    ensures ChannelsStand(s.routes, Apply(s, e).routes)
    ensures Apply(s, e).routes.nextChannelId == s.routes.nextChannelId + Registered(s, e)
  {
    hide TaskApply, FlushApply, SelectApply, TaskEnabled, FlushEnabled, SelectEnabled;
    match e
    case Task(t) => TaskStands(s, t);
    case Flush(f) => FlushStands(s, f);
    case Select(c) => SelectStands(s, c);
  }

  /** Where a session's channel falls back to: the relay it was signaled through for
      an answerer's, the home relay for an offerer's. */
  function FallbackOf(session: G.Session): nat {
    if session.role.Answerer? then session.relay else HOME_RELAY
  }

  lemma OpenedChannel(s: System, id: nat, wire: ChannelWire)
    requires RoutesInv(s.routes) && G.SessionsInv(s.sessions) && HostsLeft(s.routes) && !s.relays.closed
    requires id in s.sessions.live && wire.farEnd == s.sessions.live[id].peer
    ensures
      var session, r, n := s.sessions.live[id], ChannelStep(s, id, wire).routes, s.routes.nextChannelId + 1;
      && r.nextChannelId == n && n in r.channels
      && r.channels[n] == ChannelEntry(wire, session.peer, FallbackOf(session))
      && session.peer in r.peerToAddr && r.peerToAddr[session.peer] in r.routes
      && r.routes[r.peerToAddr[session.peer]] == Channel(n)
  {
    hide G.SessionsInv, RoutesInv;
    G.FallbackIsTheSignalingRelay(s.sessions, id);
    var peer, fallback := s.sessions.live[id].peer, G.ChannelFallback(s.sessions, id);
    RegisterChannelKeeps(s.routes, peer, wire, fallback);
    RegistersItsEntry(s.routes, peer, wire, fallback);
    hide RegisterChannel, G.EndSession, G.ChannelFallback, BookGrows;
  }

  lemma RegistersItsEntry(r: Routes, peer: EndpointId, wire: ChannelWire, fallback: nat)
    ensures
      var s, n := RegisterChannel(r, peer, wire, fallback), r.nextChannelId + 1;
      s.nextChannelId == n && n in s.channels && s.channels[n] == ChannelEntry(wire, peer, fallback)
  {
    hide DocPrefixAddr;
  }

  /** The channel a session opens carries its peer's standin at once. As long as it
      is registered, over any run, its entry says so: its wire, its peer, and the
      relay an answerer was signaled through, or for an offerer the home relay. */
  lemma ChannelsKeepTheirFallback(s: System, id: nat, wire: ChannelWire, es: seq<Event>)
    requires SystemInv(s) && HostsLeft(s.routes) && !s.relays.closed
    requires id in s.sessions.live && wire.farEnd == s.sessions.live[id].peer
    requires IsRun(ChannelStep(s, id, wire), es)
    ensures
      var session, n, r := s.sessions.live[id], s.routes.nextChannelId + 1, ChannelStep(s, id, wire).routes;
      && session.peer in r.peerToAddr && r.peerToAddr[session.peer] in r.routes
      && r.routes[r.peerToAddr[session.peer]] == Channel(n)
      && var u := After(ChannelStep(s, id, wire), es);
         n in u.routes.channels ==> u.routes.channels[n] == ChannelEntry(wire, session.peer, FallbackOf(session))
  {
    hide SystemInv, ChannelStep, G.SessionsInv, RoutesInv;
    InvParts(s);
    OpenedChannel(s, id, wire);
    RunStands(ChannelStep(s, id, wire), es);
  }

  /** When a channel dies, exactly the standin it carries, its own peer's, moves to the
      relay its entry names, and the id names nothing any more. */
  lemma DeadChannelsFallBack(u: System, n: nat)
    requires RoutesInv(u.routes) && SelectEnabled(u, ChannelReady(n, ChannelDied))
    ensures
      var v := SelectApply(u, ChannelReady(n, ChannelDied));
      && n !in v.routes.channels && v.routes.routes.Keys == u.routes.routes.Keys
      && forall a :: a in u.routes.routes ==>
           if u.routes.routes[a] == Channel(n)
           then n in u.routes.channels && a in u.routes.addrToPeer && u.routes.addrToPeer[a] == u.routes.channels[n].peer
                && v.routes.routes[a] == Relay(u.routes.channels[n].fallbackRelay)
           else v.routes.routes[a] == u.routes.routes[a]
  {
    RetireChannelRoutes(u.routes, n);
    RetireChannelKeeps(u.routes, n);
    hide RetireChannel, BookGrows, Queues, AddressBook;
  }

  // ----- upgrades -----

  /** A dial that noq took on an open endpoint asks for the upgrade it came with. */
  function Requests(s: System, e: Event): multiset<(EndpointId, nat)> {
    match e
    case Task(Connect(peer, _, _, Some(key), Some(_))) => if s.relays.closed then multiset{} else multiset{(peer, key)}
    case _ => multiset{}
  }

  function Begins(e: Event): multiset<(EndpointId, nat)> {
    match e case Task(UpgradeBegins(peer, via)) => multiset{(peer, via)} case _ => multiset{}
  }

  /** The upgrades asked for that have not begun: still to be spawned, or spawned. */
  function Outstanding(g: G.Sessions): multiset<(EndpointId, nat)> {
    g.spawned + multiset(g.signals.pendingUpgrades)
  }

  lemma TaskConserves(s: System, e: TaskEvent)
    requires TaskEnabled(s, e)
    ensures Begins(Task(e)) <= Outstanding(s.sessions)
    ensures Outstanding(TaskApply(s, e).sessions) == Outstanding(s.sessions) - Begins(Task(e)) + Requests(s, Task(e))
  {
    hide TaskApply, TaskEnabled, Outstanding;
    if TouchesSessions(e) {
      SessionTaskConserves(s, e);
    } else {
      OtherTasksKeepSessions(s, e);
    }
  }

  lemma SessionTaskConserves(s: System, e: TaskEvent)
    requires TaskEnabled(s, e) && TouchesSessions(e)
    ensures Begins(Task(e)) <= Outstanding(s.sessions)
    ensures Outstanding(TaskApply(s, e).sessions) == Outstanding(s.sessions) - Begins(Task(e)) + Requests(s, Task(e))
  {
    hide Outstanding, R.Apply, C.Apply, R.Enabled, C.Enabled, Q.Fits, DialerStep, OwnerStep, StreamStep, ConnectStep, CloseStep,
      PublishStep, ChannelStep, G.ReadSignal, G.EndSession, G.BeginUpgrade;
    match e {
      case Connect(_, _, _, _, _) => ConnectConserves(s, e);
      case UpgradeBegins(peer, via) => BeginConserves(s.sessions, peer, via);
      case ReadsSignal(id) => SessionConserves(s.sessions, id);
      case SessionFails(id) => SessionConserves(s.sessions, id);
      case ChannelOpens(id, wire) =>
        SessionConserves(s.sessions, id);
        ChannelEndsItsSession(s, id, wire);
    }
  }

  lemma BeginConserves(g: G.Sessions, peer: EndpointId, via: nat)
    requires (peer, via) in g.spawned
    ensures Outstanding(G.BeginUpgrade(g, peer, via)) == Outstanding(g) - multiset{(peer, via)}
    ensures multiset{(peer, via)} <= Outstanding(g)
  {
  }

  lemma SessionConserves(g: G.Sessions, id: nat)
    requires id in g.live
    ensures Outstanding(G.ReadSignal(g, id)) == Outstanding(g) && Outstanding(G.EndSession(g, id)) == Outstanding(g)
  {
  }

  lemma ChannelEndsItsSession(s: System, id: nat, wire: ChannelWire)
    requires id in s.sessions.live
    ensures ChannelStep(s, id, wire).sessions == G.EndSession(s.sessions, id)
  {
    hide G.EndSession, G.ChannelFallback, RegisterChannel;
  }

  lemma ConnectConserves(s: System, e: TaskEvent)
    requires TaskEnabled(s, e) && e.Connect?
    ensures Outstanding(ConnectStep(s, e.peer, e.direct, e.dialKey, e.upgradeKey, e.handle).sessions)
         == Outstanding(s.sessions) + Requests(s, Task(e))
  {
    hide C.Apply, C.Enabled, DialStandin;
  }

  lemma FlushConserves(s: System, e: FlushEvent)
    requires FlushEnabled(s, e)
    ensures Outstanding(FlushApply(s, e).sessions) == Outstanding(s.sessions)
  {
    if e.ArmTurn? {
      ArmConserves(s, e.lingered);
      hide ArmStep, TurnStep, RelayTurnStep, UdpTurnStep, ChannelTurnStep;
    } else if e.Turn? {
      hide ArmStep, RelayTurnStep, UdpTurnStep, ChannelTurnStep, DrainAllRoutes, DrainAllOwners, OutputsFit;
    } else {
      MiddleFlush(s, e);
      hide FlushApply;
    }
  }

  lemma ArmConserves(s: System, lingered: bool)
    ensures Outstanding(ArmStep(s, lingered).sessions) == Outstanding(s.sessions)
  {
    hide R.Apply, NewIds, C.AllSettled;
  }

  lemma SelectConserves(s: System, e: SelectEvent)
    requires SelectEnabled(s, e)
    ensures Outstanding(SelectApply(s, e).sessions) == Outstanding(s.sessions)
  {
    hide Outstanding, R.Apply, R.Enabled, C.Apply, C.Enabled, HandleRoutes, Sweep, IsStandin, RelayReadyStep, ChannelReadyStep;
    match e {
      case RelayReady(_, _, _, _, _) => RelayReadyConserves(s, e);
      case ChannelReady(_, _) => ChannelReadyConserves(s, e);
      case _ =>
    }
  }

  lemma RelayReadyConserves(s: System, e: SelectEvent)
    requires SelectEnabled(s, e) && e.RelayReady?
    ensures Outstanding(RelayReadyStep(s, e.key, e.conn, e.result, e.now, e.spread).sessions) == Outstanding(s.sessions)
  {
    hide Outstanding, R.Apply, R.Enabled, C.Apply, C.Enabled, AddrForPeer, HandleRoutes, G.ReceiveSignal, IsStandin;
    if e.result.GotSignal? {
      FilingConserves(s.sessions, e.key, e.result.source, e.result.payload, s.relays.closed);
    }
  }

  lemma FilingConserves(g: G.Sessions, via: nat, source: EndpointId, payload: G.Payload, closed: bool)
    ensures Outstanding(G.ReceiveSignal(g, via, source, payload, closed)) == Outstanding(g)
  {
  }

  lemma ChannelReadyConserves(s: System, e: SelectEvent)
    requires SelectEnabled(s, e) && e.ChannelReady?
    ensures ChannelReadyStep(s, e.id, e.outcome).sessions == s.sessions
  {
    hide C.Apply, C.Enabled, AddrForPeer, HandleRoutes, RetireChannel, IsStandin;
  }

  lemma StepConserves(s: System, e: Event)
    requires Enabled(s, e)
    ensures Begins(e) <= Outstanding(s.sessions)
    ensures Outstanding(Apply(s, e).sessions) == Outstanding(s.sessions) - Begins(e) + Requests(s, e)
  {
    hide TaskApply, FlushApply, SelectApply, TaskEnabled, FlushEnabled, SelectEnabled, Outstanding;
    match e
    case Task(t) => TaskConserves(s, t);
    case Flush(f) => FlushConserves(s, f);
    case Select(c) => SelectConserves(s, c);
  }

  ghost function AllRequested(s: System, es: seq<Event>): multiset<(EndpointId, nat)>
    requires IsRun(s, es)
    decreases |es|
  {
    if es == [] then multiset{} else Requests(s, es[0]) + AllRequested(Apply(s, es[0]), es[1..])
  }

  ghost function AllBegun(es: seq<Event>): multiset<(EndpointId, nat)>
    decreases |es|
  {
    if es == [] then multiset{} else Begins(es[0]) + AllBegun(es[1..])
  }

  /** Upgrades are conserved over every run: each begins at most once for each dial
      that asked for it, with that dial's own peer and relay, and until then it is
      outstanding. */
  lemma {:induction false} UpgradesAreConserved(s: System, es: seq<Event>)
    requires IsRun(s, es)
    ensures AllBegun(es) + Outstanding(After(s, es).sessions) == AllRequested(s, es) + Outstanding(s.sessions)
    decreases |es|
  {
    hide Apply, Enabled, Outstanding, Requests, Begins;
    if es != [] {
      StepConserves(s, es[0]);
      UpgradesAreConserved(Apply(s, es[0]), es[1..]);
      var t := Apply(s, es[0]);
      assert Outstanding(t.sessions) + Begins(es[0]) == Outstanding(s.sessions) + Requests(s, es[0]);
      SumsJoin(Begins(es[0]), AllBegun(es[1..]), Outstanding(After(s, es).sessions), Outstanding(t.sessions),
               AllRequested(t, es[1..]), Requests(s, es[0]), Outstanding(s.sessions));
    }
  }

  lemma SumsJoin<T>(a: multiset<T>, b: multiset<T>, c: multiset<T>, d: multiset<T>, e: multiset<T>, f: multiset<T>, g: multiset<T>)
    requires b + c == e + d && d + a == g + f
    ensures (a + b) + c == (f + e) + g
  {
    assert (a + b) + c == a + (b + c) == a + (e + d) == e + (d + a) == e + (g + f) == (f + e) + g;
  }
}

/** Every step of the endpoint keeps every invariant, and what follows for whole runs. */
module RuntimeSafety {
  import opened Types
  import opened Routing
  import opened Wakeups
  import opened Runtime
  import R = RelayPool
  import G = Signaling
  import C = Connections
  import Q = StreamCalls

  // ----- routes and sends -----

  lemma SentStays(s: System, t: System)
    requires AllSentReach(s) && BookGrows(s.routes, t.routes) && t.sent == s.sent
    ensures AllSentReach(t)
  {
    forall w | w in t.sent ensures ReachesItsPeer(t.routes, w) {
      ReachedForGood(s.routes, t.routes, w);
    }
  }

  lemma OneMoreSent(s: System, t: System, w: Option<WireSend>)
    requires AllSentReach(s) && BookGrows(s.routes, t.routes)
    requires t.sent == if w.Some? then s.sent + [w.value] else s.sent
    requires w.Some? ==> ReachesItsPeer(t.routes, w.value)
    ensures AllSentReach(t)
  {
    forall x | x in t.sent ensures ReachesItsPeer(t.routes, x) {
      if x in s.sent {
        ReachedForGood(s.routes, t.routes, x);
      }
    }
  }

  lemma {:induction false} DrainKeepsRoutes(o: C.Owners, r: Routes, outs: seq<NoqOutput>)
    requires RoutesInv(r) && RoutesAreOwned(r) && OutputsFit(o, r, outs)
    ensures RoutesInv(DrainAllRoutes(r, outs)) && BookGrows(r, DrainAllRoutes(r, outs))
    decreases |outs|
  {
    if outs != [] {
      var before, last := outs[..|outs| - 1], outs[|outs| - 1];
      DrainKeepsRoutes(o, r, before);
      var mid := DrainAllRoutes(r, before);
      if last.Transmit? {
        RouteTransmitKeeps(mid, last.destination, last.contents);
        BookGrowsOn(r, mid, RouteTransmit(mid, last.destination, last.contents));
      }
    }
  }

  lemma DatagramKeepsRoutes(r: Routes, c: C.Conns, closed: bool, addr: SocketAddr, source: Option<EndpointId>, v: Verdict)
    requires RoutesInv(r)
    requires match source
             case Some(peer) => addr in r.addrToPeer && r.addrToPeer[addr] == peer
             case None => !IsStandin(addr)
    ensures var s := HandleRoutes(r, c, closed, addr, source, v); RoutesInv(s) && BookGrows(r, s)
  {
    hide RoutesInv, PushResponse;
    if Response(c, closed, v).Some? {
      PushResponseKeeps(r, addr, source, Response(c, closed, v).value);
    } else {
      BookStays(r);
    }
  }

  lemma BookStays(r: Routes)
    ensures BookGrows(r, r)
  {
  }

  /** A datagram from `peer`, by relay or channel, enters under its standin. */
  lemma PeerDatagramKeepsRoutes(r: Routes, peer: EndpointId, via: nat, c: C.Conns, closed: bool, v: Verdict)
    requires RoutesInv(r) && HostsLeft(r)
    ensures
      var (r1, addr) := AddrForPeer(r, peer, via);
      var s := HandleRoutes(r1, c, closed, addr, Some(peer), v);
      RoutesInv(s) && BookGrows(r, s)
  {
    hide RoutesInv, AddrForPeer, HandleRoutes, BookGrows;
    AddrForPeerKeeps(r, peer, via);
    var (r1, addr) := AddrForPeer(r, peer, via);
    DatagramKeepsRoutes(r1, c, closed, addr, Some(peer), v);
    BookGrowsOn(r, r1, HandleRoutes(r1, c, closed, addr, Some(peer), v));
  }

  lemma PublishKeepsRoutes(r: Routes, relay: nat, peer: EndpointId, contents: seq<byte>)
    requires RoutesInv(r)
    ensures var s := PushSignal(r, relay, peer, contents); RoutesInv(s) && BookGrows(r, s)
  {
    hide AddressBook, ChannelTable;
    assert AddressBook(PushSignal(r, relay, peer, contents)) && ChannelTable(PushSignal(r, relay, peer, contents)) by {
      SameTables(r, PushSignal(r, relay, peer, contents));
    }
  }

  lemma SameTables(r: Routes, s: Routes)
    requires AddressBook(r) && ChannelTable(r)
    requires s.peerToAddr == r.peerToAddr && s.addrToPeer == r.addrToPeer && s.nextHost == r.nextHost && s.routes == r.routes
    requires s.channels == r.channels && s.nextChannelId == r.nextChannelId
    ensures AddressBook(s) && ChannelTable(s)
  {
  }

  lemma ArmingKeepsRoutes(r: Routes)
    requires RoutesInv(r)
    ensures var s := r.(newChannels := []); RoutesInv(s) && BookGrows(r, s)
  {
    var s := r.(newChannels := []);
    SameTables(r, s);
    assert BookGrows(r, s);
    QueuesFrame(r, s);
    hide AddressBook, ChannelTable, Queues;
  }

  // ----- steps of resource methods, guards and session tasks -----

  predicate TouchesRoutes(e: TaskEvent) { e.Connect? || e.Publish? || e.ChannelOpens? }

  lemma OtherTasksKeepRoutes(s: System, e: TaskEvent)
    requires TaskEnabled(s, e) && !TouchesRoutes(e)
    ensures TaskApply(s, e).routes == s.routes
  {
    hide R.Apply, C.Apply, ConnectStep, PublishStep, ChannelStep, Q.Kicks, Q.Loads, Q.ConsumesReset;
  }

  lemma TasksSendNothing(s: System, e: TaskEvent)
    requires TaskEnabled(s, e)
    ensures TaskApply(s, e).sent == s.sent && TaskApply(s, e).channelRecvs == s.channelRecvs
  {
    if TouchesRoutes(e) {
      RouteTasksSendNothing(s, e);
      hide TaskApply;
    } else {
      hide R.Apply, C.Apply, Q.Kicks, Q.Loads, Q.ConsumesReset, ConnectStep, PublishStep, ChannelStep;
    }
  }

  lemma RouteTasksSendNothing(s: System, e: TaskEvent)
    requires TaskEnabled(s, e) && TouchesRoutes(e)
    ensures TaskApply(s, e).sent == s.sent && TaskApply(s, e).channelRecvs == s.channelRecvs
  {
    hide C.Apply, RegisterChannel, DialStandin, PushSignal, G.EndSession, G.ChannelFallback;
  }

  lemma ConnectKeepsRoutes(s: System, e: TaskEvent)
    requires RoutesInv(s.routes) && TaskEnabled(s, e) && e.Connect?
    ensures
      var t := ConnectStep(s, e.peer, e.direct, e.dialKey, e.upgradeKey, e.handle);
      RoutesInv(t.routes) && BookGrows(s.routes, t.routes)
  {
    hide RoutesInv, BookGrows, C.Apply, DialStandin;
    BookStays(s.routes);
    DialStandinKeeps(s.routes, e.peer, e.dialKey);
  }

  lemma PublishStepKeepsRoutes(s: System, id: nat, payload: seq<byte>)
    requires RoutesInv(s.routes) && id in s.sessions.live
    ensures var t := PublishStep(s, id, payload); RoutesInv(t.routes) && BookGrows(s.routes, t.routes)
  {
    hide RoutesInv, BookGrows, PushSignal;
    BookStays(s.routes);
    var peer := s.sessions.live[id].peer;
    var relay := G.SignalingRelay(s.sessions.signals, peer);
    if relay.Some? {
      PublishKeepsRoutes(s.routes, relay.value, peer, payload);
    }
  }

  lemma ChannelStepKeepsRoutes(s: System, id: nat, wire: ChannelWire)
    requires RoutesInv(s.routes) && TaskEnabled(s, ChannelOpens(id, wire))
    ensures var t := ChannelStep(s, id, wire); RoutesInv(t.routes) && BookGrows(s.routes, t.routes)
  {
    hide RoutesInv, BookGrows, RegisterChannel, G.ChannelFallback, G.EndSession;
    BookStays(s.routes);
    RegisterChannelKeeps(s.routes, s.sessions.live[id].peer, wire, G.ChannelFallback(s.sessions, id));
  }

  lemma TaskRoutes(s: System, e: TaskEvent)
    requires RoutesInv(s.routes) && AllSentReach(s) && TaskEnabled(s, e)
    ensures RoutesInv(TaskApply(s, e).routes) && AllSentReach(TaskApply(s, e)) && BookGrows(s.routes, TaskApply(s, e).routes)
  {
    hide RoutesInv, AllSentReach, BookGrows, ConnectStep, PublishStep, ChannelStep;
    TasksSendNothing(s, e);
    BookStays(s.routes);
    match e {
      case Connect(peer, direct, dialKey, upgradeKey, h) => ConnectKeepsRoutes(s, e);
      case Publish(id, payload) => PublishStepKeepsRoutes(s, id, payload);
      case ChannelOpens(id, wire) => ChannelStepKeepsRoutes(s, id, wire);
      case _ =>
        OtherTasksKeepRoutes(s, e);
        hide TaskApply;
    }
    SentStays(s, TaskApply(s, e));
  }

  lemma TaskRelays(s: System, e: TaskEvent)
    requires R.RelaysInv(s.relays) && TaskEnabled(s, e)
    ensures R.RelaysInv(TaskApply(s, e).relays)
  {
    hide R.RelaysInv, R.Apply, C.Apply, RegisterChannel, DialStandin;
    match e {
      case Dialer(d) => R.StepKeepsInv(s.relays, d);
      case EndpointClose => R.StepKeepsInv(s.relays, R.EndpointClosed);
      case _ =>
    }
  }

  predicate TouchesSessions(e: TaskEvent) {
    e.UpgradeBegins? || e.ReadsSignal? || e.SessionFails? || e.ChannelOpens? || e.Connect?
  }

  lemma OtherTasksKeepSessions(s: System, e: TaskEvent)
    requires TaskEnabled(s, e) && !TouchesSessions(e)
    ensures TaskApply(s, e).sessions == s.sessions
  {
    hide R.Apply, C.Apply;
  }

  lemma TaskSessions(s: System, e: TaskEvent)
    requires G.SessionsInv(s.sessions) && TaskEnabled(s, e)
    ensures G.SessionsInv(TaskApply(s, e).sessions)
  {
    hide G.SessionsInv, TaskApply, TaskEnabled;
    if e.Connect? {
      ConnectSessions(s, e);
    } else if TouchesSessions(e) {
      SessionTaskKeeps(s, e);
    } else {
      OtherTasksKeepSessions(s, e);
    }
  }

  lemma ConnectSessions(s: System, e: TaskEvent)
    requires G.SessionsInv(s.sessions) && TaskEnabled(s, e) && e.Connect?
    ensures G.SessionsInv(TaskApply(s, e).sessions)
  {
    hide G.SessionsInv, R.Apply, C.Apply, DialStandin;
    G.UpgradeQueueKeeps(s.sessions, TaskApply(s, e).sessions);
  }

  lemma SessionTaskKeeps(s: System, e: TaskEvent)
    requires G.SessionsInv(s.sessions) && TaskEnabled(s, e) && TouchesSessions(e) && !e.Connect?
    ensures G.SessionsInv(TaskApply(s, e).sessions)
  {
    hide G.SessionsInv, R.Apply, C.Apply, RegisterChannel, G.EndSession, G.ReadSignal, G.BeginUpgrade, G.ChannelFallback;
    match e {
      case UpgradeBegins(peer, via) => G.BeginUpgradeKeeps(s.sessions, peer, via);
      case ReadsSignal(id) => G.ReadSignalKeeps(s.sessions, id);
      case SessionFails(id) => G.EndSessionKeeps(s.sessions, id);
      case ChannelOpens(id, wire) => G.EndSessionKeeps(s.sessions, id);
    }
  }

  lemma TaskOwners(s: System, e: TaskEvent)
    requires C.OwnersInv(s.owners) && TaskEnabled(s, e)
    ensures C.OwnersInv(TaskApply(s, e).owners)
  {
    hide C.OwnersInv, R.Apply, C.Apply, RegisterChannel, DialStandin;
    match e {
      case Connect(peer, direct, dialKey, upgradeKey, h) =>
        if h.Some? {
          C.StepKeepsInv(s.owners, C.Dialed(h.value, peer));
        }
      case Owner(c) => C.StepKeepsInv(s.owners, c);
      case EndpointClose => C.StepKeepsInv(s.owners, C.AllClosed);
      case _ =>
    }
  }

  /** Apart from polls of waiters, a task leaves the wakers alone, kicks, wakes, or both. */
  ghost predicate WakesOrKicks(w: Wake, v: Wake) {
    || v == w || v == KickPump(w) || v == WakeWaiters(w)
    || v == KickPump(WakeWaiters(w)) || v == WakeWaiters(KickPump(w))
  }

  ghost predicate OnlyWakes(s: System, t: System) { WakesOrKicks(s.wake, t.wake) && t.waiting == s.waiting }

  lemma DialerOnlyWakes(s: System, d: R.RelayEvent)
    requires R.Enabled(s.relays, d)
    ensures OnlyWakes(s, DialerStep(s, d))
  {
    hide R.Apply, R.Enabled, KickPump, WakeWaiters;
  }

  lemma ConnectOnlyWakes(s: System, e: TaskEvent)
    requires TaskEnabled(s, e) && e.Connect?
    ensures OnlyWakes(s, ConnectStep(s, e.peer, e.direct, e.dialKey, e.upgradeKey, e.handle))
  {
    hide C.Apply, C.Enabled, DialStandin, KickPump;
  }

  lemma OwnerOnlyWakes(s: System, c: C.ConnEvent)
    requires C.Enabled(s.owners, c)
    ensures OnlyWakes(s, OwnerStep(s, c))
  {
    hide C.Apply, C.Enabled, KickPump, Closes;
  }

  lemma StreamOnlyWakes(s: System, op: Q.StreamOp)
    requires Q.Fits(op)
    ensures OnlyWakes(s, StreamStep(s, op))
  {
    hide Q.Fits, Q.Kicks, Q.Loads, Q.ConsumesReset, KickPump;
  }

  lemma SessionsOnlyWake(s: System, id: nat, payload: seq<byte>, wire: ChannelWire)
    requires id in s.sessions.live
    ensures OnlyWakes(s, PublishStep(s, id, payload)) && OnlyWakes(s, ChannelStep(s, id, wire))
  {
    hide KickPump, PushSignal, RegisterChannel, G.EndSession, G.ChannelFallback;
  }

  lemma TaskWakes(s: System, e: TaskEvent)
    requires TaskEnabled(s, e) && !e.WaiterPolled? && !e.WaiterDropped?
    ensures WakesOrKicks(s.wake, TaskApply(s, e).wake) && TaskApply(s, e).waiting == s.waiting
  {
    hide DialerStep, ConnectStep, OwnerStep, StreamStep, PublishStep, ChannelStep, R.Enabled, C.Enabled, Q.Fits, R.Apply, C.Apply,
      KickPump, WakeWaiters, G.ReadSignal, G.EndSession, G.BeginUpgrade;
    match e {
      case Dialer(d) => DialerOnlyWakes(s, d);
      case Connect(_, _, _, _, _) => ConnectOnlyWakes(s, e);
      case Owner(c) => OwnerOnlyWakes(s, c);
      case StreamCall(_, op) => StreamOnlyWakes(s, op);
      case Publish(id, payload) => SessionsOnlyWake(s, id, payload, ChannelWire(0, s.sessions.live[id].peer));
      case ChannelOpens(id, wire) => SessionsOnlyWake(s, id, [], wire);
      case _ =>
    }
  }

  lemma WakesKeepWaiters(w: Wake, v: Wake, waiting: set<TaskId>)
    requires NoneForgotten(w, waiting) && WakesOrKicks(w, v)
    ensures NoneForgotten(v, waiting)
    ensures w.pumpReady || (w.pumpWaker && !w.pumpKicked) ==> v.pumpReady || (v.pumpWaker && !v.pumpKicked)
  {
  }

  lemma TaskKeepsPc(s: System, e: TaskEvent)
    requires TaskEnabled(s, e)
    ensures TaskApply(s, e).pc == s.pc && TaskApply(s, e).forceWake == s.forceWake
  {
    if TouchesRoutes(e) {
      RouteTasksKeepPc(s, e);
      hide TaskApply;
    } else {
      hide R.Apply, C.Apply, Q.Kicks, Q.Loads, Q.ConsumesReset, ConnectStep, PublishStep, ChannelStep;
    }
  }

  lemma RouteTasksKeepPc(s: System, e: TaskEvent)
    requires TaskEnabled(s, e) && TouchesRoutes(e)
    ensures TaskApply(s, e).pc == s.pc && TaskApply(s, e).forceWake == s.forceWake
  {
    hide C.Apply, RegisterChannel, DialStandin, PushSignal, G.EndSession, G.ChannelFallback;
  }

  lemma TaskWakers(s: System, e: TaskEvent)
    requires WakersAreSet(s) && TaskEnabled(s, e)
    ensures WakersAreSet(TaskApply(s, e))
  {
    TaskKeepsPc(s, e);
    if !e.WaiterPolled? && !e.WaiterDropped? {
      TaskWakes(s, e);
      WakesKeepWaiters(s.wake, TaskApply(s, e).wake, s.waiting);
      hide TaskApply, NoneForgotten, WakesOrKicks;
    }
  }

  /** What the pump has to flush is the same in both states. */
  ghost predicate SameWork(s: System, t: System) {
    && t.dirty == s.dirty && t.resetUnflushed == s.resetUnflushed
    && t.routes.relayOutbound == s.routes.relayOutbound
    && t.routes.udpOutbound == s.routes.udpOutbound
    && t.routes.channelOutbound == s.routes.channelOutbound
    && t.routes.newChannels == s.routes.newChannels
    && t.relays.pool.newRelays == s.relays.pool.newRelays
    && t.sessions.signals.pendingUpgrades == s.sessions.signals.pendingUpgrades
  }

  lemma DialerArms(s: R.Relays, e: R.RelayEvent)
    requires R.Enabled(s, e) && IsDialerStep(e)
    ensures !(e.DialResolved? && e.ok) ==> R.Apply(s, e).pool.newRelays == s.pool.newRelays
  {
    hide R.Normalize;
  }

  /** A read that consumed a RESET and freed credit with it. */
  predicate ConsumesReset(e: TaskEvent) { e.StreamCall? && Q.ConsumesReset(e.op) }

  /** A task that gives the pump more to do kicks it, but for the one kind of call. */
  lemma TaskKicks(s: System, e: TaskEvent)
    requires TaskEnabled(s, e)
    ensures !ConsumesReset(e) ==> KicksForWork(s, TaskApply(s, e))
    ensures ConsumesReset(e) ==> TaskApply(s, e) == s.(dirty := true, resetUnflushed := true)
  {
    hide C.Apply, R.Apply, StreamStep, DialerStep, ConnectStep, PublishStep, ChannelStep, Q.Fits, Q.ConsumesReset, KicksForWork;
    match e {
      case Dialer(d) => DialerKicks(s, d);
      case Connect(_, _, _, _, _) => ConnectKicks(s, e);
      case StreamCall(ref, op) => StreamKicks(s, op);
      case Publish(id, payload) => PublishKicks(s, id, payload);
      case ChannelOpens(id, wire) => ChannelKicks(s, id, wire);
      case _ => OtherTasksKick(s, e);
    }
  }

  lemma PublishKicks(s: System, id: nat, payload: seq<byte>)
    requires id in s.sessions.live
    ensures KicksForWork(s, PublishStep(s, id, payload))
  {
    hide PushSignal;
  }

  lemma ChannelKicks(s: System, id: nat, wire: ChannelWire)
    requires id in s.sessions.live
    ensures KicksForWork(s, ChannelStep(s, id, wire))
  {
    hide RegisterChannel, G.ChannelFallback;
  }

  lemma OwnerKicks(s: System, c: C.ConnEvent)
    requires C.Enabled(s.owners, c)
    ensures KicksForWork(s, OwnerStep(s, c))
  {
    hide C.Apply, C.Enabled, Closes;
  }

  lemma CloseKicks(s: System)
    ensures KicksForWork(s, CloseStep(s))
  {
    hide C.Apply, R.Apply;
  }

  /** Owners and close kick when they give noq a close to send; the rest give it nothing. */
  lemma OtherTasksKick(s: System, e: TaskEvent)
    requires TaskEnabled(s, e) && !TouchesRoutes(e) && !e.Dialer? && !e.StreamCall?
    ensures KicksForWork(s, TaskApply(s, e))
  {
    hide C.Enabled, StreamStep, DialerStep, ConnectStep, PublishStep, ChannelStep, OwnerStep, CloseStep;
    match e {
      case Owner(c) => OwnerKicks(s, c);
      case EndpointClose => CloseKicks(s);
      case _ =>
    }
  }

  lemma StreamKicks(s: System, op: Q.StreamOp)
    requires Q.Fits(op)
    ensures !Q.ConsumesReset(op) ==> KicksForWork(s, StreamStep(s, op))
    ensures Q.ConsumesReset(op) ==> StreamStep(s, op) == s.(dirty := true, resetUnflushed := true)
  {
    Q.UnkickedLoadsAreResets(op);
    hide Q.Fits, Q.Kicks, Q.Loads, Q.ConsumesReset;
  }

  ghost predicate KicksForWork(s: System, t: System) {
    t.wake.pumpKicked || (t.wake.pumpKicked == s.wake.pumpKicked && SameWork(s, t))
  }

  lemma DialerKicks(s: System, d: R.RelayEvent)
    requires IsDialerStep(d) && R.Enabled(s.relays, d)
    ensures KicksForWork(s, DialerStep(s, d))
  {
    DialerArms(s.relays, d);
    hide R.Apply;
  }

  lemma ConnectKicks(s: System, e: TaskEvent)
    requires TaskEnabled(s, e) && e.Connect?
    ensures KicksForWork(s, ConnectStep(s, e.peer, e.direct, e.dialKey, e.upgradeKey, e.handle))
  {
    DialQueuesNothing(s.routes, e.peer, e.dialKey);
    hide C.Apply, DialStandin;
  }

  lemma DialQueuesNothing(r: Routes, peer: EndpointId, dialKey: nat)
    ensures
      var s := DialStandin(r, peer, dialKey).0;
      && s.relayOutbound == r.relayOutbound && s.udpOutbound == r.udpOutbound
      && s.channelOutbound == r.channelOutbound && s.newChannels == r.newChannels
  {
  }

  lemma TaskStrandsNothing(s: System, e: TaskEvent)
    requires NothingStranded(s) && TaskEnabled(s, e)
    ensures NothingStranded(TaskApply(s, e))
  {
    TaskKeepsPc(s, e);
    TaskKicks(s, e);
    TaskKeepsReset(s, e);
    hide TaskApply;
  }

  lemma TaskKeepsReset(s: System, e: TaskEvent)
    requires TaskEnabled(s, e)
    ensures
      var t := TaskApply(s, e);
      && t.resetUnflushed == (s.resetUnflushed || ConsumesReset(e))
      && (s.dirty ==> t.dirty) && (ConsumesReset(e) ==> t.dirty)
  {
    if e.StreamCall? {
      Q.UnkickedLoadsAreResets(e.op);
      hide Q.ConsumesReset, Q.Fits, Q.Kicks, Q.Loads;
    } else if TouchesRoutes(e) {
      hide C.Apply, RegisterChannel, DialStandin, PushSignal, G.EndSession, G.ChannelFallback;
    } else {
      hide R.Apply, C.Apply, C.Enabled, Closes, ConnectStep, PublishStep, ChannelStep, StreamStep;
    }
  }

  // ----- channel receives -----

  lemma NewIdsSnoc(cs: seq<(nat, ChannelWire)>, c: (nat, ChannelWire))
    ensures NewIds(cs + [c]) == NewIds(cs) + [c.0]
  {
    assert (cs + [c])[..|cs|] == cs;
  }

  lemma SameChannelsKeep(r: Routes, recvs: multiset<nat>, s: Routes)
    requires ChannelDiscipline(r, recvs)
    requires s.newChannels == r.newChannels && s.nextChannelId >= r.nextChannelId
    requires forall id :: id in s.channels ==> id in r.channels
    ensures ChannelDiscipline(s, recvs)
  {
  }

  lemma RegisterAddsOne(r: Routes, peer: EndpointId, wire: ChannelWire, fallback: nat)
    ensures
      var s, id := RegisterChannel(r, peer, wire, fallback), r.nextChannelId + 1;
      && s.newChannels == r.newChannels + [(id, wire)] && s.nextChannelId == id
      && s.channels.Keys == r.channels.Keys + {id}
  {
    hide DocPrefixAddr;
  }

  lemma RegisterKeepsReceives(r: Routes, recvs: multiset<nat>, peer: EndpointId, wire: ChannelWire, fallback: nat)
    requires ChannelDiscipline(r, recvs)
    ensures ChannelDiscipline(RegisterChannel(r, peer, wire, fallback), recvs)
  {
    var s, id := RegisterChannel(r, peer, wire, fallback), r.nextChannelId + 1;
    RegisterAddsOne(r, peer, wire, fallback);
    hide RegisterChannel;
    NewIdsSnoc(r.newChannels, (id, wire));
    hide NewIds;
    assert ChannelReceives(s, recvs) == ChannelReceives(r, recvs) + multiset{id};
    hide ChannelReceives;
  }

  lemma ArmKeepsReceives(r: Routes, recvs: multiset<nat>)
    requires ChannelDiscipline(r, recvs)
    ensures ChannelDiscipline(r.(newChannels := []), recvs + multiset(NewIds(r.newChannels)))
  {
    assert ChannelReceives(r.(newChannels := []), recvs + multiset(NewIds(r.newChannels))) == ChannelReceives(r, recvs);
    hide ChannelReceives;
  }

  lemma TaskReceives(s: System, e: TaskEvent)
    requires ChannelDiscipline(s.routes, s.channelRecvs) && TaskEnabled(s, e)
    ensures ChannelDiscipline(TaskApply(s, e).routes, TaskApply(s, e).channelRecvs)
  {
    hide ChannelDiscipline, C.Apply, RegisterChannel, DialStandin, G.EndSession, G.ChannelFallback;
    TasksSendNothing(s, e);
    match e {
      case ChannelOpens(id, wire) =>
        RegisterKeepsReceives(s.routes, s.channelRecvs, s.sessions.live[id].peer, wire, G.ChannelFallback(s.sessions, id));
      case Connect(peer, direct, dialKey, upgradeKey, h) =>
        DialTouchesNoChannel(s.routes, peer, dialKey);
        SameChannelsKeep(s.routes, s.channelRecvs, TaskApply(s, e).routes);
      case Publish(id, payload) =>
        SameChannelsKeep(s.routes, s.channelRecvs, TaskApply(s, e).routes);
      case _ =>
        OtherTasksKeepRoutes(s, e);
        hide TaskApply;
    }
  }

  lemma DialTouchesNoChannel(r: Routes, peer: EndpointId, dialKey: nat)
    ensures
      var s := DialStandin(r, peer, dialKey).0;
      s.channels == r.channels && s.newChannels == r.newChannels && s.nextChannelId == r.nextChannelId
  {
  }

  lemma {:induction false} DrainTouchesNoChannel(r: Routes, outs: seq<NoqOutput>)
    requires RoutesAreOwned(r)
    ensures
      var s := DrainAllRoutes(r, outs);
      s.channels == r.channels && s.newChannels == r.newChannels && s.nextChannelId == r.nextChannelId
    decreases |outs|
  {
    if outs != [] {
      DrainTouchesNoChannel(r, outs[..|outs| - 1]);
    }
  }

  predicate SameChannels(r: Routes, s: Routes) {
    s.channels == r.channels && s.newChannels == r.newChannels && s.nextChannelId == r.nextChannelId
  }

  lemma RelayTurnTouchesNoChannel(s: System)
    ensures SameChannels(s.routes, RelayTurnStep(s).routes)
  {
  }

  lemma UdpTurnTouchesNoChannel(s: System)
    ensures SameChannels(s.routes, UdpTurnStep(s).routes)
  {
  }

  lemma ChannelTurnTouchesNoChannel(s: System)
    ensures SameChannels(s.routes, ChannelTurnStep(s).routes)
  {
  }

  lemma FlushReceives(s: System, e: FlushEvent)
    requires ChannelDiscipline(s.routes, s.channelRecvs) && FlushEnabled(s, e)
    ensures ChannelDiscipline(FlushApply(s, e).routes, FlushApply(s, e).channelRecvs)
  {
    hide ChannelDiscipline, R.Apply, DrainAllRoutes, DrainAllOwners, OutputsFit, NewIds, C.AllSettled;
    match e {
      case ArmTurn(lingered) => ArmKeepsReceives(s.routes, s.channelRecvs);
      case Turn(outputs) =>
        DrainTouchesNoChannel(s.routes, outputs);
        SameChannelsKeep(s.routes, s.channelRecvs, FlushApply(s, e).routes);
      case _ =>
        MiddleFlush(s, e);
        MiddleTouchesNoChannel(s, e);
        hide FlushApply;
        SameChannelsKeep(s.routes, s.channelRecvs, FlushApply(s, e).routes);
    }
  }

  lemma MiddleTouchesNoChannel(s: System, e: FlushEvent)
    requires FlushEnabled(s, e) && !e.Turn? && !e.ArmTurn?
    ensures SameChannels(s.routes, FlushApply(s, e).routes)
  {
    RelayTurnTouchesNoChannel(s);
    UdpTurnTouchesNoChannel(s);
    ChannelTurnTouchesNoChannel(s);
    hide R.Apply, RelayTurnStep, UdpTurnStep, ChannelTurnStep, TurnStep, ArmStep;
  }

  lemma DatagramTouchesNoChannel(r: Routes, c: C.Conns, closed: bool, addr: SocketAddr, source: Option<EndpointId>, v: Verdict)
    ensures
      var s := HandleRoutes(r, c, closed, addr, source, v);
      s.channels == r.channels && s.newChannels == r.newChannels && s.nextChannelId == r.nextChannelId
  {
  }

  lemma AddressTouchesNoChannel(r: Routes, peer: EndpointId, via: nat)
    ensures
      var s := AddrForPeer(r, peer, via).0;
      s.channels == r.channels && s.newChannels == r.newChannels && s.nextChannelId == r.nextChannelId
  {
  }

  lemma PeerDatagramTouchesNoChannel(r: Routes, peer: EndpointId, via: nat, c: C.Conns, closed: bool, v: Verdict)
    ensures
      var (r1, addr) := AddrForPeer(r, peer, via);
      var s := HandleRoutes(r1, c, closed, addr, Some(peer), v);
      s.channels == r.channels && s.newChannels == r.newChannels && s.nextChannelId == r.nextChannelId
  {
    hide AddrForPeer, HandleRoutes;
    AddressTouchesNoChannel(r, peer, via);
    var (r1, addr) := AddrForPeer(r, peer, via);
    DatagramTouchesNoChannel(r1, c, closed, addr, Some(peer), v);
  }

  lemma DropKeepsReceives(r: Routes, recvs: multiset<nat>, s: Routes, id: nat)
    requires ChannelDiscipline(r, recvs) && id in recvs
    requires s.newChannels == r.newChannels && s.nextChannelId == r.nextChannelId
    requires s.channels.Keys <= r.channels.Keys - {id}
    ensures ChannelDiscipline(s, recvs - multiset{id})
  {
    hide NewIds;
    var before, after := ChannelReceives(r, recvs), ChannelReceives(s, recvs - multiset{id});
    assert forall k :: after[k] == before[k] - if k == id then 1 else 0;
    hide ChannelReceives;
  }

  /** A resolved receive is re-armed exactly while its channel lives; a dead
      channel goes with its receive. */
  lemma ResolvedReceiveKeeps(r: Routes, recvs: multiset<nat>, id: nat, died: bool)
    requires ChannelDiscipline(r, recvs) && id in recvs
    ensures
      var resolved := recvs - multiset{id};
      ChannelDiscipline(if died then RetireChannel(r, id) else r,
                        if id in r.channels && !died then resolved + multiset{id} else resolved)
  {
    hide ChannelDiscipline;
    if died {
      RetireTouchesOne(r, id);
      hide RetireChannel;
      DropKeepsReceives(r, recvs, RetireChannel(r, id), id);
    } else if id in r.channels {
      assert recvs - multiset{id} + multiset{id} == recvs;
    } else {
      assert r.channels.Keys - {id} == r.channels.Keys;
      DropKeepsReceives(r, recvs, r, id);
    }
  }

  lemma RetireTouchesOne(r: Routes, id: nat)
    ensures
      var s := RetireChannel(r, id);
      s.newChannels == r.newChannels && s.nextChannelId == r.nextChannelId && s.channels.Keys == r.channels.Keys - {id}
  {
  }

  lemma SelectReceives(s: System, e: SelectEvent)
    requires ChannelDiscipline(s.routes, s.channelRecvs) && SelectEnabled(s, e)
    ensures ChannelDiscipline(SelectApply(s, e).routes, SelectApply(s, e).channelRecvs)
  {
    hide ChannelDiscipline, R.Apply, C.Apply, AddrForPeer, HandleRoutes, RetireChannel, G.ReceiveSignal, Sweep;
    var t := SelectApply(s, e);
    match e {
      case RelayReady(key, conn, result, now, spread) =>
        if result.GotDatagram? {
          PeerDatagramTouchesNoChannel(s.routes, result.source, key, s.owners.conns, t.relays.closed, result.verdict);
          SameChannelsKeep(s.routes, s.channelRecvs, t.routes);
        }
      case UdpReady(remote, v) =>
        DatagramTouchesNoChannel(s.routes, s.owners.conns, s.relays.closed, remote, None, v);
        SameChannelsKeep(s.routes, s.channelRecvs, t.routes);
      case ChannelReady(id, outcome) =>
        ResolvedReceiveKeeps(s.routes, s.channelRecvs, id, outcome.ChannelDied?);
        if outcome.ChannelDatagram? && id in s.routes.channels {
          var entry := s.routes.channels[id];
          PeerDatagramTouchesNoChannel(s.routes, entry.peer, entry.fallbackRelay, s.owners.conns, s.relays.closed, outcome.verdict);
          SameChannelsKeep(s.routes, t.channelRecvs, t.routes);
        }
      case _ =>
    }
  }

  lemma TaskShutsDown(s: System, e: TaskEvent)
    requires ShutDown(s) && TaskEnabled(s, e)
    ensures ShutDown(TaskApply(s, e))
  {
    hide R.Apply, R.Enabled, C.Apply, C.NoneLive, RegisterChannel, DialStandin, Q.Fits, Q.Kicks, Q.Loads, Q.ConsumesReset,
      KickPump, WakeWaiters, G.ReadSignal, G.EndSession, G.BeginUpgrade, G.ChannelFallback;
    match e {
      case Dialer(d) => R.OnlyCloseCloses(s.relays, d);
      case Owner(c) =>
        if s.relays.closed {
          C.NothingComesAlive(s.owners, c);
        }
      case EndpointClose => C.CloseReachesAll(s.owners);
      case _ =>
    }
  }

  lemma TaskKeepsInv(s: System, e: TaskEvent)
    requires SystemInv(s) && TaskEnabled(s, e)
    ensures SystemInv(TaskApply(s, e))
  {
    hide RoutesInv, AllSentReach, R.RelaysInv, G.SessionsInv, C.OwnersInv, WakersAreSet, NothingStranded, ShutDown, ChannelDiscipline, TaskApply;
    TaskRoutes(s, e);
    TaskRelays(s, e);
    TaskSessions(s, e);
    TaskOwners(s, e);
    TaskWakers(s, e);
    TaskStrandsNothing(s, e);
    TaskReceives(s, e);
    TaskShutsDown(s, e);
  }

  // ----- the pump, from the top of its turn to its select -----

  lemma RelayTurnRoutes(s: System)
    requires RoutesInv(s.routes) && AllSentReach(s)
    ensures var t := RelayTurnStep(s); RoutesInv(t.routes) && AllSentReach(t) && BookGrows(s.routes, t.routes)
  {
    hide RoutesInv, AllSentReach, BookGrows, ReachesItsPeer, PopRelay;
    BookStays(s.routes);
    if s.routes.relayOutbound == [] {
      SentStays(s, RelayTurnStep(s));
    } else {
      PopRelayReaches(s.routes, s.relays.pool.conns);
      OneMoreSent(s, RelayTurnStep(s), PopRelay(s.routes, s.relays.pool.conns).1);
    }
  }

  lemma UdpTurnRoutes(s: System)
    requires RoutesInv(s.routes) && AllSentReach(s)
    ensures var t := UdpTurnStep(s); RoutesInv(t.routes) && AllSentReach(t) && BookGrows(s.routes, t.routes)
  {
    hide RoutesInv, AllSentReach, BookGrows, ReachesItsPeer, PopUdp;
    BookStays(s.routes);
    if s.routes.udpOutbound == [] {
      SentStays(s, UdpTurnStep(s));
    } else {
      PopUdpReaches(s.routes, s.udpBound);
      OneMoreSent(s, UdpTurnStep(s), PopUdp(s.routes, s.udpBound).1);
    }
  }

  lemma ChannelTurnRoutes(s: System)
    requires RoutesInv(s.routes) && AllSentReach(s)
    ensures var t := ChannelTurnStep(s); RoutesInv(t.routes) && AllSentReach(t) && BookGrows(s.routes, t.routes)
  {
    hide RoutesInv, AllSentReach, BookGrows, ReachesItsPeer, PopChannel;
    BookStays(s.routes);
    if s.routes.channelOutbound == [] {
      SentStays(s, ChannelTurnStep(s));
    } else {
      PopChannelReaches(s.routes);
      OneMoreSent(s, ChannelTurnStep(s), PopChannel(s.routes).1);
    }
  }

  lemma FlushRoutes(s: System, e: FlushEvent)
    requires RoutesInv(s.routes) && AllSentReach(s) && FlushEnabled(s, e)
    ensures RoutesInv(FlushApply(s, e).routes) && AllSentReach(FlushApply(s, e)) && BookGrows(s.routes, FlushApply(s, e).routes)
  {
    hide RoutesInv, AllSentReach, BookGrows, RelayTurnStep, UdpTurnStep, ChannelTurnStep, DrainAllRoutes, DrainAllOwners;
    hide OutputsFit, R.Apply, RoutesAreOwned, NewIds, C.AllSettled;
    BookStays(s.routes);
    match e {
      case Turn(outputs) =>
        DrainKeepsRoutes(s.owners, s.routes, outputs);
        SentStays(s, FlushApply(s, e));
      case RelayTurn => RelayTurnRoutes(s);
      case UdpTurn => UdpTurnRoutes(s);
      case ChannelTurn => ChannelTurnRoutes(s);
      case ArmTurn(lingered) =>
        ArmingKeepsRoutes(s.routes);
        SentStays(s, FlushApply(s, e));
      case _ =>
        SentStays(s, FlushApply(s, e));
    }
  }

  ghost predicate OnlyFlushes(s: System, t: System) {
    && t.sessions == s.sessions && t.owners == s.owners && t.channelRecvs == s.channelRecvs
    && t.wake == s.wake && t.waiting == s.waiting && t.forceWake == s.forceWake
    && t.dirty == s.dirty && t.resetUnflushed == s.resetUnflushed
    && !t.pc.Parked? && !t.pc.TurnTop?
  }

  lemma RelayTurnOnlyFlushes(s: System)
    ensures OnlyFlushes(s, RelayTurnStep(s))
  {
    hide PopRelay;
  }

  lemma UdpTurnOnlyFlushes(s: System)
    ensures OnlyFlushes(s, UdpTurnStep(s))
  {
    hide PopUdp;
  }

  lemma ChannelTurnOnlyFlushes(s: System)
    ensures OnlyFlushes(s, ChannelTurnStep(s))
  {
    hide PopChannel;
  }

  /** Between the top of a turn and its arming, a step moves only the routes, the
      pool, the log of what was sent, and the program counter. */
  lemma MiddleFlush(s: System, e: FlushEvent)
    requires FlushEnabled(s, e) && !e.Turn? && !e.ArmTurn?
    ensures OnlyFlushes(s, FlushApply(s, e))
  {
    RelayTurnOnlyFlushes(s);
    UdpTurnOnlyFlushes(s);
    ChannelTurnOnlyFlushes(s);
    hide R.Apply, R.Enabled, RelayTurnStep, UdpTurnStep, ChannelTurnStep, TurnStep, ArmStep;
  }

  lemma FlushRelays(s: System, e: FlushEvent)
    requires R.RelaysInv(s.relays) && FlushEnabled(s, e)
    ensures R.RelaysInv(FlushApply(s, e).relays)
  {
    hide R.RelaysInv, R.Apply, PopRelay, PopUdp, PopChannel, DrainAllRoutes, DrainAllOwners, OutputsFit, NewIds, C.AllSettled;
    match e {
      case RelaySent(ok, now, spread) =>
        if !ok {
          R.StepKeepsInv(s.relays, R.SendFailed(s.pc.key, s.pc.conn, now, spread));
        }
      case ArmTurn(lingered) => R.StepKeepsInv(s.relays, R.Armed);
      case _ =>
    }
  }

  lemma ArmSessions(s: System, lingered: bool)
    requires G.SessionsInv(s.sessions)
    ensures G.SessionsInv(ArmStep(s, lingered).sessions)
  {
    hide G.SessionsInv, R.Apply, NewIds, C.AllSettled;
    G.UpgradeQueueKeeps(s.sessions, ArmStep(s, lingered).sessions);
  }

  lemma FlushSessions(s: System, e: FlushEvent)
    requires G.SessionsInv(s.sessions) && FlushEnabled(s, e)
    ensures G.SessionsInv(FlushApply(s, e).sessions)
  {
    hide G.SessionsInv;
    match e {
      case ArmTurn(lingered) =>
        ArmSessions(s, lingered);
        hide ArmStep;
      case Turn(outputs) =>
        hide DrainAllRoutes, DrainAllOwners, OutputsFit, ArmStep;
      case _ =>
        MiddleFlush(s, e);
        hide FlushApply;
    }
  }

  lemma {:induction false} DrainKeepsOwners(o: C.Owners, r: Routes, outs: seq<NoqOutput>)
    requires C.OwnersInv(o) && OutputsFit(o, r, outs)
    ensures C.OwnersInv(DrainAllOwners(o, r, outs))
    decreases |outs|
  {
    hide C.OwnersInv, C.Apply, C.Enabled;
    if outs != [] {
      var before, last := outs[..|outs| - 1], outs[|outs| - 1];
      DrainKeepsOwners(o, r, before);
      var mid := DrainAllOwners(o, r, before);
      match last {
        case ConnectedEvent(h, tlsPeer) => C.StepKeepsInv(mid, C.Connected(h, tlsPeer));
        case LostEvent(h, reason) => C.StepKeepsInv(mid, C.Lost(h, reason));
        case DrainedNow(h) => C.StepKeepsInv(mid, C.Drained(h));
        case _ =>
      }
    }
  }

  lemma FlushOwners(s: System, e: FlushEvent)
    requires C.OwnersInv(s.owners) && FlushEnabled(s, e)
    ensures C.OwnersInv(FlushApply(s, e).owners)
  {
    hide C.OwnersInv, R.Apply, DrainAllRoutes, DrainAllOwners, OutputsFit, NewIds, C.AllSettled;
    if e.Turn? {
      DrainKeepsOwners(s.owners, s.routes, e.outputs);
    } else if !e.ArmTurn? {
      MiddleFlush(s, e);
      hide FlushApply;
    }
  }

  /** A flush step only ever wakes; the top of a turn after a tick always does. */
  lemma FlushWakes(s: System, e: FlushEvent)
    requires FlushEnabled(s, e)
    ensures
      var t := FlushApply(s, e);
      && (t.wake == s.wake || t.wake == WakeWaiters(s.wake)) && t.waiting == s.waiting
      && (e.Turn? && s.forceWake ==> t.wake == WakeWaiters(s.wake))
  {
    hide R.Apply, DrainAllRoutes, DrainAllOwners, OutputsFit, NewIds, C.AllSettled, WakeWaiters;
    if !e.Turn? && !e.ArmTurn? {
      MiddleFlush(s, e);
      hide FlushApply;
    }
  }

  lemma FlushMovesPc(s: System, e: FlushEvent)
    requires FlushEnabled(s, e)
    ensures var t := FlushApply(s, e); !t.pc.Parked? && (t.forceWake ==> s.forceWake && !e.Turn?)
  {
    hide R.Apply, DrainAllRoutes, DrainAllOwners, OutputsFit, NewIds, C.AllSettled, WakeWaiters;
    if !e.Turn? && !e.ArmTurn? {
      MiddleFlush(s, e);
      hide FlushApply;
    }
  }

  lemma FlushWakers(s: System, e: FlushEvent)
    requires WakersAreSet(s) && FlushEnabled(s, e)
    ensures WakersAreSet(FlushApply(s, e))
  {
    FlushWakes(s, e);
    FlushMovesPc(s, e);
    WakesKeepWaiters(s.wake, FlushApply(s, e).wake, s.waiting);
    assert e.Turn? || !s.pc.TurnTop?;
    hide FlushApply, NoneForgotten, WakeWaiters;
  }

  lemma FlushStrandsNothing(s: System, e: FlushEvent)
    requires NothingStranded(s) && FlushEnabled(s, e)
    ensures NothingStranded(FlushApply(s, e))
  {
    match e {
      case UdpTurn => UdpTurnStrandsNothing(s);
      case ChannelTurn => ChannelTurnStrandsNothing(s);
      case ArmTurn(lingered) => ArmStrandsNothing(s, lingered);
      case _ =>
    }
    hide DrainAllRoutes, DrainAllOwners, OutputsFit, R.Apply, UdpTurnStep, ChannelTurnStep, ArmStep;
  }

  lemma UdpTurnStrandsNothing(s: System)
    requires NothingStranded(s) && s.pc.FlushUdp?
    ensures NothingStranded(UdpTurnStep(s))
  {
  }

  lemma ChannelTurnStrandsNothing(s: System)
    requires NothingStranded(s) && s.pc.FlushChannel?
    ensures NothingStranded(ChannelTurnStep(s))
  {
  }

  lemma ArmingTakesAll(s: System)
    ensures forall lingered :: ArmStep(s, lingered).relays.pool.newRelays == []
    ensures forall lingered :: ArmStep(s, lingered).sessions.signals.pendingUpgrades == []
  {
    hide NewIds, C.AllSettled;
  }

  lemma ArmStrandsNothing(s: System, lingered: bool)
    requires NothingStranded(s) && s.pc.Arming?
    ensures NothingStranded(ArmStep(s, lingered))
  {
    ArmingTakesAll(s);
    var t := ArmStep(s, lingered);
    assert t.wake.pumpKicked == s.wake.pumpKicked && t.dirty == s.dirty && t.resetUnflushed == s.resetUnflushed by {
      hide NewIds, C.AllSettled, R.Apply;
    }
    assert t.routes == s.routes.(newChannels := []) by {
      hide NewIds, C.AllSettled, R.Apply;
    }
    hide ArmStep;
  }

  lemma {:induction false} DrainRevivesNone(o: C.Owners, r: Routes, outs: seq<NoqOutput>)
    requires C.NoneLive(o.conns) && OutputsFit(o, r, outs)
    ensures C.NoneLive(DrainAllOwners(o, r, outs).conns)
    decreases |outs|
  {
    hide C.NoneLive, C.Apply, C.Enabled;
    if outs != [] {
      var before, last := outs[..|outs| - 1], outs[|outs| - 1];
      DrainRevivesNone(o, r, before);
      var mid := DrainAllOwners(o, r, before);
      match last {
        case ConnectedEvent(h, tlsPeer) => C.NothingComesAlive(mid, C.Connected(h, tlsPeer));
        case LostEvent(h, reason) => C.NothingComesAlive(mid, C.Lost(h, reason));
        case DrainedNow(h) => C.NothingComesAlive(mid, C.Drained(h));
        case _ =>
      }
    }
  }

  lemma FlushShutsDown(s: System, e: FlushEvent)
    requires ShutDown(s) && FlushEnabled(s, e)
    ensures ShutDown(FlushApply(s, e))
  {
    hide R.Apply, C.NoneLive, DrainAllRoutes, DrainAllOwners, OutputsFit, NewIds, C.AllSettled;
    match e {
      case Turn(outputs) =>
        if s.relays.closed {
          DrainRevivesNone(s.owners, s.routes, outputs);
        }
      case RelaySent(ok, now, spread) => R.OnlyCloseCloses(s.relays, R.SendFailed(s.pc.key, s.pc.conn, now, spread));
      case ArmTurn(_) => R.OnlyCloseCloses(s.relays, R.Armed);
      case _ =>
    }
  }

  lemma FlushKeepsInv(s: System, e: FlushEvent)
    requires SystemInv(s) && FlushEnabled(s, e)
    ensures SystemInv(FlushApply(s, e))
  {
    hide RoutesInv, AllSentReach, R.RelaysInv, G.SessionsInv, C.OwnersInv, WakersAreSet, NothingStranded, ShutDown, ChannelDiscipline, FlushApply;
    FlushRoutes(s, e);
    FlushRelays(s, e);
    FlushSessions(s, e);
    FlushOwners(s, e);
    FlushWakers(s, e);
    FlushStrandsNothing(s, e);
    FlushReceives(s, e);
    FlushShutsDown(s, e);
  }

  // ----- the arms of the pump's select -----

  lemma SelectRoutes(s: System, e: SelectEvent)
    requires RoutesInv(s.routes) && AllSentReach(s) && SelectEnabled(s, e)
    ensures RoutesInv(SelectApply(s, e).routes) && AllSentReach(SelectApply(s, e)) && BookGrows(s.routes, SelectApply(s, e).routes)
  {
    hide RoutesInv, AllSentReach, BookGrows, R.Apply, C.Apply, AddrForPeer, HandleRoutes, RetireChannel, G.ReceiveSignal, Sweep;
    var t := SelectApply(s, e);
    BookStays(s.routes);
    match e {
      case RelayReady(key, conn, result, now, spread) =>
        if result.GotDatagram? {
          PeerDatagramKeepsRoutes(s.routes, result.source, key, s.owners.conns, t.relays.closed, result.verdict);
        }
      case UdpReady(remote, v) =>
        DatagramKeepsRoutes(s.routes, s.owners.conns, s.relays.closed, remote, None, v);
      case ChannelReady(id, outcome) =>
        RetireChannelKeeps(s.routes, id);
        if outcome.ChannelDatagram? && id in s.routes.channels {
          var entry := s.routes.channels[id];
          PeerDatagramKeepsRoutes(s.routes, entry.peer, entry.fallbackRelay, s.owners.conns, s.relays.closed, outcome.verdict);
        }
      case _ =>
    }
    SentStays(s, t);
  }

  lemma {:induction false} SweepKeepsInv(s: R.Relays, now: Instant, dead: seq<(nat, nat)>)
    requires R.RelaysInv(s) && SweepFits(dead)
    ensures R.RelaysInv(Sweep(s, now, dead)) && Sweep(s, now, dead).pool.newRelays == s.pool.newRelays
    decreases |dead|
  {
    hide R.RelaysInv, R.Apply;
    if dead != [] {
      var e := R.FoundDead(dead[0].0, now, dead[0].1);
      if R.Enabled(s, e) {
        R.StepKeepsInv(s, e);
        R.ArmsAfter(s, e);
      }
      SweepKeepsInv(if R.Enabled(s, e) then R.Apply(s, e) else s, now, dead[1..]);
    }
  }

  lemma SelectRelays(s: System, e: SelectEvent)
    requires R.RelaysInv(s.relays) && SelectEnabled(s, e)
    ensures R.RelaysInv(SelectApply(s, e).relays)
  {
    hide R.RelaysInv, R.Apply, C.Apply, AddrForPeer, HandleRoutes, RetireChannel, G.ReceiveSignal, Sweep;
    match e {
      case RelayReady(key, conn, result, now, spread) =>
        R.StepKeepsInv(s.relays, R.Received(key, conn, !result.RecvFailed?, now, spread));
      case RedialReady(ok, now, spread) =>
        R.StepKeepsInv(s.relays, R.RedialResolved(ok, now, spread));
      case TickReady(now, dead) => SweepKeepsInv(s.relays, now, dead);
      case _ =>
    }
  }

  lemma SelectSessions(s: System, e: SelectEvent)
    requires G.SessionsInv(s.sessions) && SelectEnabled(s, e)
    ensures G.SessionsInv(SelectApply(s, e).sessions)
  {
    hide G.SessionsInv, R.Apply, C.Apply, AddrForPeer, HandleRoutes, RetireChannel, G.ReceiveSignal, Sweep;
    if e.RelayReady? && e.result.GotSignal? {
      ReceivedKeepsClosed(s.relays, R.Received(e.key, e.conn, !e.result.RecvFailed?, e.now, e.spread));
      G.ReceiveSignalKeeps(s.sessions, e.key, e.result.source, e.result.payload, s.relays.closed);
    }
  }

  lemma ReceivedKeepsClosed(s: R.Relays, e: R.RelayEvent)
    requires R.Enabled(s, e) && e.Received?
    ensures R.Apply(s, e).closed == s.closed
  {
  }

  lemma SelectOwners(s: System, e: SelectEvent)
    requires C.OwnersInv(s.owners) && SelectEnabled(s, e)
    ensures C.OwnersInv(SelectApply(s, e).owners)
  {
    hide C.OwnersInv, R.Apply, C.Apply, AddrForPeer, HandleRoutes, RetireChannel, G.ReceiveSignal, Sweep;
    match e {
      case RelayReady(key, conn, result, now, spread) =>
        if result.GotDatagram? && result.verdict.NewConnection? {
          C.StepKeepsInv(s.owners, C.Incoming(result.verdict.handle, Some(result.source)));
        }
      case UdpReady(remote, v) =>
        if v.NewConnection? {
          C.StepKeepsInv(s.owners, C.Incoming(v.handle, None));
        }
      case ChannelReady(id, outcome) =>
        if outcome.ChannelDatagram? && outcome.verdict.NewConnection? && id in s.routes.channels {
          C.StepKeepsInv(s.owners, C.Incoming(outcome.verdict.handle, Some(s.routes.channels[id].peer)));
        }
      case _ =>
    }
  }

  lemma SelectWakers(s: System, e: SelectEvent)
    requires WakersAreSet(s) && SelectEnabled(s, e)
    ensures WakersAreSet(SelectApply(s, e))
  {
    hide R.Apply, C.Apply, AddrForPeer, HandleRoutes, RetireChannel, G.ReceiveSignal, Sweep;
  }

  ghost predicate BackToTop(s: System, t: System) {
    t.pc.TurnTop? && t.resetUnflushed == s.resetUnflushed && (s.dirty ==> t.dirty)
  }

  lemma RelayReadyGoesToTop(s: System, e: SelectEvent)
    requires SelectEnabled(s, e) && e.RelayReady?
    ensures BackToTop(s, RelayReadyStep(s, e.key, e.conn, e.result, e.now, e.spread))
  {
    hide R.Apply, C.Apply, AddrForPeer, HandleRoutes, G.ReceiveSignal;
  }

  lemma ChannelReadyGoesToTop(s: System, e: SelectEvent)
    requires SelectEnabled(s, e) && e.ChannelReady?
    ensures BackToTop(s, ChannelReadyStep(s, e.id, e.outcome))
  {
    hide C.Apply, AddrForPeer, HandleRoutes, RetireChannel;
  }

  /** Every arm goes back to the top of the turn; parking and resuming stay at the select. */
  lemma SelectStrandsNothing(s: System, e: SelectEvent)
    requires NothingStranded(s) && SelectEnabled(s, e)
    ensures NothingStranded(SelectApply(s, e))
  {
    hide R.Apply, C.Apply, HandleRoutes, Sweep, RelayReadyStep, ChannelReadyStep;
    match e {
      case RelayReady(_, _, _, _, _) => RelayReadyGoesToTop(s, e);
      case ChannelReady(_, _) => ChannelReadyGoesToTop(s, e);
      case _ =>
    }
  }

  lemma {:induction false} SweepKeepsClosed(s: R.Relays, now: Instant, dead: seq<(nat, nat)>)
    requires SweepFits(dead)
    ensures Sweep(s, now, dead).closed == s.closed
    decreases |dead|
  {
    hide R.Apply, R.Enabled;
    if dead != [] {
      var e := R.FoundDead(dead[0].0, now, dead[0].1);
      if R.Enabled(s, e) {
        R.OnlyCloseCloses(s, e);
      }
      SweepKeepsClosed(if R.Enabled(s, e) then R.Apply(s, e) else s, now, dead[1..]);
    }
  }

  lemma SelectShutsDown(s: System, e: SelectEvent)
    requires ShutDown(s) && SelectEnabled(s, e)
    ensures ShutDown(SelectApply(s, e))
  {
    hide R.Apply, C.Apply, C.NoneLive, AddrForPeer, HandleRoutes, RetireChannel, G.ReceiveSignal, Sweep;
    match e {
      case RelayReady(key, conn, result, now, spread) =>
        R.OnlyCloseCloses(s.relays, R.Received(key, conn, !result.RecvFailed?, now, spread));
      case RedialReady(ok, now, spread) => R.OnlyCloseCloses(s.relays, R.RedialResolved(ok, now, spread));
      case TickReady(now, dead) => SweepKeepsClosed(s.relays, now, dead);
      case _ =>
    }
  }

  lemma SelectKeepsInv(s: System, e: SelectEvent)
    requires SystemInv(s) && SelectEnabled(s, e)
    ensures SystemInv(SelectApply(s, e))
  {
    hide RoutesInv, AllSentReach, R.RelaysInv, G.SessionsInv, C.OwnersInv, WakersAreSet, NothingStranded, ShutDown, ChannelDiscipline, SelectApply;
    SelectRoutes(s, e);
    SelectRelays(s, e);
    SelectSessions(s, e);
    SelectOwners(s, e);
    SelectWakers(s, e);
    SelectStrandsNothing(s, e);
    SelectReceives(s, e);
    SelectShutsDown(s, e);
  }

  // ----- every run -----

  lemma BindIsGood(homeUrl: R.Url, now: Instant, webrtc: bool, udpBound: bool)
    ensures SystemInv(Bind(homeUrl, now, webrtc, udpBound))
  {
    R.BoundIsGood(homeUrl, now);
    G.NoSessionsIsGood(webrtc);
    C.NoConnsIsGood();
    hide R.RelaysInv, G.SessionsInv, C.OwnersInv, R.Bound;
  }

  lemma StepKeepsInv(s: System, e: Event)
    requires SystemInv(s) && Enabled(s, e)
    ensures SystemInv(Apply(s, e))
    ensures BookGrows(s.routes, Apply(s, e).routes)
  {
    match e
    case Task(t) =>
      TaskKeepsInv(s, t);
      TaskRoutes(s, t);
      hide SystemInv, TaskApply, BookGrows;
    case Flush(f) =>
      FlushKeepsInv(s, f);
      FlushRoutes(s, f);
      hide SystemInv, FlushApply, BookGrows;
    case Select(c) =>
      SelectKeepsInv(s, c);
      SelectRoutes(s, c);
      hide SystemInv, SelectApply, BookGrows;
  }

  ghost predicate IsRun(s: System, es: seq<Event>)
    decreases |es|
  {
    es == [] || (Enabled(s, es[0]) && IsRun(Apply(s, es[0]), es[1..]))
  }

  ghost function After(s: System, es: seq<Event>): System
    requires IsRun(s, es)
    decreases |es|
  {
    if es == [] then s else After(Apply(s, es[0]), es[1..])
  }

  lemma {:induction false} RunsJoin(s: System, xs: seq<Event>, ys: seq<Event>)
    requires IsRun(s, xs) && IsRun(After(s, xs), ys)
    ensures IsRun(s, xs + ys) && After(s, xs + ys) == After(After(s, xs), ys)
    decreases |xs|
  {
    hide Apply, Enabled;
    if xs == [] {
      assert xs + ys == ys;
    } else {
      RunsJoin(Apply(s, xs[0]), xs[1..], ys);
      assert (xs + ys)[1..] == xs[1..] + ys;
    }
  }

  lemma RunOfOne(s: System, e: Event)
    requires Enabled(s, e)
    ensures IsRun(s, [e]) && After(s, [e]) == Apply(s, e)
  {
    hide Apply, Enabled;
    assert [e][1..] == [];
  }

  /** A run, one more step. */
  lemma RunExtends(s: System, es: seq<Event>, e: Event)
    requires IsRun(s, es) && Enabled(After(s, es), e)
    ensures IsRun(s, es + [e]) && After(s, es + [e]) == Apply(After(s, es), e)
  {
    hide Apply, Enabled;
    RunOfOne(After(s, es), e);
    RunsJoin(s, es, [e]);
  }

  lemma {:induction false} RunKeepsInv(s: System, es: seq<Event>)
    requires SystemInv(s) && IsRun(s, es)
    ensures SystemInv(After(s, es))
    ensures BookGrows(s.routes, After(s, es).routes)
    decreases |es|
  {
    if es == [] {
      BookStays(s.routes);
    } else {
      hide SystemInv, Apply, Enabled, BookGrows;
      StepKeepsInv(s, es[0]);
      RunKeepsInv(Apply(s, es[0]), es[1..]);
      BookGrowsOn(s.routes, Apply(s, es[0]).routes, After(s, es).routes);
    }
  }

  lemma InvParts(s: System)
    requires SystemInv(s)
    ensures RoutesInv(s.routes) && AllSentReach(s) && ChannelDiscipline(s.routes, s.channelRecvs)
    ensures WakersAreSet(s) && NothingStranded(s) && ShutDown(s)
    ensures R.RelaysInv(s.relays) && G.SessionsInv(s.sessions) && C.OwnersInv(s.owners)
  {
    hide RoutesInv, AllSentReach, ChannelDiscipline, WakersAreSet, NothingStranded, ShutDown, R.RelaysInv, G.SessionsInv, C.OwnersInv;
  }

  /** Every state the endpoint can reach keeps every invariant. */
  lemma EveryRunIsGood(homeUrl: R.Url, now: Instant, webrtc: bool, udpBound: bool, es: seq<Event>)
    requires IsRun(Bind(homeUrl, now, webrtc, udpBound), es)
    ensures SystemInv(After(Bind(homeUrl, now, webrtc, udpBound), es))
  {
    hide SystemInv;
    BindIsGood(homeUrl, now, webrtc, udpBound);
    RunKeepsInv(Bind(homeUrl, now, webrtc, udpBound), es);
  }

  /** Close closes: in every state reached after it, each connection still in its
      slot has failed, drained or been closed, and none joins them. */
  lemma NothingOutlivesClose(homeUrl: R.Url, now: Instant, webrtc: bool, udpBound: bool, es: seq<Event>, h: C.Handle)
    requires IsRun(Bind(homeUrl, now, webrtc, udpBound), es)
    ensures
      var t := After(Bind(homeUrl, now, webrtc, udpBound), es);
      t.relays.closed && h in t.owners.conns.entries ==>
        var e := t.owners.conns.entries[h];
        e.error.Some? || e.drained || e.closing
  {
    hide SystemInv;
    EveryRunIsGood(homeUrl, now, webrtc, udpBound, es);
    hide IsRun, After, Bind;
    InvParts(After(Bind(homeUrl, now, webrtc, udpBound), es));
  }

  /** The pump leaves its loop exactly when the endpoint is closed and either each
      connection has failed or drained or the linger is over; and it leaves nobody
      parked. */
  lemma PumpLeavesWhenDone(s: System, lingered: bool)
    requires SystemInv(s) && FlushEnabled(s, ArmTurn(lingered))
    ensures
      var t := FlushApply(s, ArmTurn(lingered));
      && (t.pc.Ended? <==>
            && s.relays.closed
            && (lingered || forall h :: h in s.owners.conns.entries ==>
                  s.owners.conns.entries[h].error.Some? || s.owners.conns.entries[h].drained))
      && (!t.pc.Ended? ==> t.pc.Selecting?)
      && (t.pc.Ended? ==> t.waiting <= t.wake.ready && t.waiting == s.waiting)
  {
    hide R.Apply, NewIds, RoutesInv, AllSentReach, R.RelaysInv, G.SessionsInv, C.OwnersInv, ChannelDiscipline;
    WakeResumesAll(s.wake, s.waiting);
  }

  /** Addressing safety: across every interleaving of dials, upgrades, channel
      deaths, relay retirements and redials, whatever was handed to a wire for
      a standin went to a wire whose far end is the peer that owns that standin;
      and the owner lookup of the next drain cannot panic. */
  lemma EverySendReachesItsPeer(homeUrl: R.Url, now: Instant, webrtc: bool, udpBound: bool, es: seq<Event>)
    requires IsRun(Bind(homeUrl, now, webrtc, udpBound), es)
    ensures
      var t := After(Bind(homeUrl, now, webrtc, udpBound), es);
      && (forall w :: w in t.sent ==> ReachesItsPeer(t.routes, w))
      && RoutesAreOwned(t.routes)
  {
    hide SystemInv;
    EveryRunIsGood(homeUrl, now, webrtc, udpBound, es);
    InvParts(After(Bind(homeUrl, now, webrtc, udpBound), es));
  }

  /** A peer keeps its standin for the whole run, whichever wires carry it. */
  lemma StandinsAreStable(s: System, es: seq<Event>, peer: EndpointId)
    requires SystemInv(s) && IsRun(s, es) && peer in s.routes.peerToAddr
    ensures
      var t := After(s, es);
      peer in t.routes.peerToAddr && t.routes.peerToAddr[peer] == s.routes.peerToAddr[peer]
  {
    hide SystemInv;
    RunKeepsInv(s, es);
  }

  /** No lost kick: a pump that is parked and will not be resumed has nothing to
      flush, arm or spawn; and noq has something for it to collect if and only
      if, since the last drain, a read consumed a RESET that freed credit. */
  lemma ParkedPumpOwesOnlyResets(s: System)
    requires SystemInv(s) && s.pc.Parked? && !s.wake.pumpReady
    ensures !s.wake.pumpKicked && s.wake.pumpWaker
    ensures s.routes.relayOutbound == [] && s.routes.udpOutbound == [] && s.routes.channelOutbound == []
    ensures s.relays.pool.newRelays == [] && s.routes.newChannels == [] && s.sessions.signals.pendingUpgrades == []
    ensures s.dirty <==> s.resetUnflushed
  {
    hide RoutesInv, AllSentReach, R.RelaysInv, G.SessionsInv, C.OwnersInv, ChannelDiscipline;
  }

  /** A kick resumes a parked pump. */
  lemma KickResumesParkedPump(s: System)
    requires SystemInv(s) && s.pc.Parked?
    ensures Kicked(s).wake.pumpReady
  {
    hide RoutesInv, AllSentReach, R.RelaysInv, G.SessionsInv, C.OwnersInv, NothingStranded;
  }

  ghost predicate TasksOnly(es: seq<Event>) {
    forall i :: 0 <= i < |es| ==> es[i].Task?
  }

  lemma {:induction false} ForcedWakeWaits(s: System, es: seq<Event>)
    requires SystemInv(s) && IsRun(s, es) && TasksOnly(es)
    ensures After(s, es).forceWake == s.forceWake && SystemInv(After(s, es))
    decreases |es|
  {
    hide SystemInv, TaskApply, TaskEnabled, FlushApply, FlushEnabled, SelectApply, SelectEnabled, BookGrows;
    if es != [] {
      StepKeepsInv(s, es[0]);
      TaskKeepsPc(s, es[0].task);
      ForcedWakeWaits(Apply(s, es[0]), es[1..]);
    }
  }

  /** A tick's turn re-polls every waiter: whatever tasks run between the tick
      and the top of the next turn, all who wait then will be resumed. */
  lemma TickTurnResumesAll(s: System, tick: SelectEvent, between: seq<Event>, outputs: seq<NoqOutput>)
    requires SystemInv(s) && tick.TickReady? && SelectEnabled(s, tick)
    requires TasksOnly(between) && IsRun(SelectApply(s, tick), between)
    requires FlushEnabled(After(SelectApply(s, tick), between), Turn(outputs))
    ensures
      var u := After(SelectApply(s, tick), between);
      var t := FlushApply(u, Turn(outputs));
      t.waiting == u.waiting && t.waiting <= t.wake.ready
  {
    hide SystemInv, SelectApply, SelectEnabled, FlushApply, FlushEnabled;
    var m := SelectApply(s, tick);
    SelectKeepsInv(s, tick);
    TickForcesAWake(s, tick);
    ForcedWakeWaits(m, between);
    var u := After(m, between);
    InvParts(u);
    FlushWakes(u, Turn(outputs));
    WakeResumesAll(u.wake, u.waiting);
  }

  lemma TickForcesAWake(s: System, tick: SelectEvent)
    requires tick.TickReady? && SelectEnabled(s, tick)
    ensures SelectApply(s, tick).forceWake && SelectApply(s, tick).dirty
  {
    hide Sweep, RelayReadyStep, ChannelReadyStep;
  }
}

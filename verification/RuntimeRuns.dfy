/** Every run of the endpoint is, component by component, a run of the pool
    machine and of the ownership machine, so what those prove of all their runs
    holds in the whole endpoint. */
module RuntimeRuns {
  import opened Types
  import opened Routing
  import opened Runtime
  import opened RuntimeSafety
  import R = RelayPool
  import G = Signaling
  import C = Connections

  // ----- the pool machine -----

  lemma {:induction false} RelayRunsJoin(s: R.Relays, xs: seq<R.RelayEvent>, ys: seq<R.RelayEvent>)
    requires R.IsRun(s, xs) && R.IsRun(R.After(s, xs), ys)
    ensures R.IsRun(s, xs + ys) && R.After(s, xs + ys) == R.After(R.After(s, xs), ys)
    decreases |xs|
  {
    hide R.Apply, R.Enabled;
    if xs == [] {
      assert xs + ys == ys;
    } else {
      RelayRunsJoin(R.Apply(s, xs[0]), xs[1..], ys);
      assert (xs + ys)[1..] == xs[1..] + ys;
    }
  }

  lemma {:induction false} SweepIsARun(s: R.Relays, now: Instant, dead: seq<(nat, nat)>) returns (xs: seq<R.RelayEvent>)
    requires SweepFits(dead)
    ensures R.IsRun(s, xs) && R.After(s, xs) == Sweep(s, now, dead)
    decreases |dead|
  {
    hide R.Apply, R.Enabled;
    if dead == [] {
      xs := [];
    } else {
      var e := R.FoundDead(dead[0].0, now, dead[0].1);
      if R.Enabled(s, e) {
        var ys := SweepIsARun(R.Apply(s, e), now, dead[1..]);
        xs := [e] + ys;
        assert xs[1..] == ys;
      } else {
        xs := SweepIsARun(s, now, dead[1..]);
      }
    }
  }

  /** The pool machine's step inside a system step other than a sweep. */
  function RelayStepOf(s: System, e: Event): Option<R.RelayEvent>
    requires Enabled(s, e)
  {
    match e
    case Task(Dialer(d)) => Some(d)
    case Task(EndpointClose) => if s.relays.closed then None else Some(R.EndpointClosed)
    case Flush(RelaySent(ok, now, spread)) =>
      if ok then None else Some(R.SendFailed(s.pc.key, s.pc.conn, now, spread))
    case Flush(ArmTurn(_)) => Some(R.Armed)
    case Select(RelayReady(key, conn, result, now, spread)) =>
      Some(R.Received(key, conn, !result.RecvFailed?, now, spread))
    case Select(RedialReady(ok, now, spread)) => Some(R.RedialResolved(ok, now, spread))
    case _ => None
  }

  lemma TaskStepsRelays(s: System, e: TaskEvent)
    requires TaskEnabled(s, e)
    ensures
      var x := RelayStepOf(s, Task(e));
      && (x.Some? ==> R.Enabled(s.relays, x.value))
      && TaskApply(s, e).relays == if x.Some? then R.Apply(s.relays, x.value) else s.relays
  {
    hide R.Apply, C.Apply, RegisterChannel, DialStandin;
  }

  lemma FlushStepsRelays(s: System, e: FlushEvent)
    requires FlushEnabled(s, e)
    ensures
      var x := RelayStepOf(s, Flush(e));
      && (x.Some? ==> R.Enabled(s.relays, x.value))
      && FlushApply(s, e).relays == if x.Some? then R.Apply(s.relays, x.value) else s.relays
  {
    hide R.Apply, PopRelay, PopUdp, PopChannel, DrainAllRoutes, DrainAllOwners, OutputsFit;
  }

  lemma SelectStepsRelays(s: System, e: SelectEvent)
    requires SelectEnabled(s, e) && !e.TickReady?
    ensures
      var x := RelayStepOf(s, Select(e));
      && (x.Some? ==> R.Enabled(s.relays, x.value))
      && SelectApply(s, e).relays == if x.Some? then R.Apply(s.relays, x.value) else s.relays
  {
    hide R.Apply, C.Apply, AddrForPeer, HandleRoutes, RetireChannel, G.ReceiveSignal;
  }

  lemma StepsRelays(s: System, e: Event) returns (xs: seq<R.RelayEvent>)
    requires Enabled(s, e)
    ensures R.IsRun(s.relays, xs) && R.After(s.relays, xs) == Apply(s, e).relays
  {
    if e.Select? && e.select.TickReady? {
      xs := SweepIsARun(s.relays, e.select.now, e.select.dead);
    } else {
      match e {
        case Task(t) => TaskStepsRelays(s, t);
        case Flush(f) => FlushStepsRelays(s, f);
        case Select(c) => SelectStepsRelays(s, c);
      }
      hide R.Apply, R.Enabled, TaskApply, FlushApply, SelectApply;
      var x := RelayStepOf(s, e);
      xs := if x.Some? then [x.value] else [];
    }
  }

  /** Every run of the endpoint is a run of the pool machine, so what that
      machine proves of all its runs holds in the whole endpoint. */
  lemma {:induction false} RunsRelays(s: System, es: seq<Event>) returns (xs: seq<R.RelayEvent>)
    requires IsRun(s, es)
    ensures R.IsRun(s.relays, xs) && R.After(s.relays, xs) == After(s, es).relays
    decreases |es|
  {
    hide Apply, Enabled, R.Apply, R.Enabled;
    if es == [] {
      xs := [];
    } else {
      var head := StepsRelays(s, es[0]);
      var tail := RunsRelays(Apply(s, es[0]), es[1..]);
      RelayRunsJoin(s.relays, head, tail);
      xs := head + tail;
    }
  }

  /** In the whole endpoint, too, a retired foreign key never denotes a connection again. */
  lemma RetiredForGood(s: System, es: seq<Event>, key: nat)
    requires SystemInv(s) && IsRun(s, es)
    requires key != HOME_RELAY && key < s.relays.pool.nextKey && key !in s.relays.pool.conns
    ensures key !in After(s, es).relays.pool.conns
  {
    hide SystemInv, R.RelaysInv, Apply, Enabled;
    InvParts(s);
    var xs := RunsRelays(s, es);
    R.RetiredKeysStayRetired(s.relays, xs, key);
  }

  // ----- the ownership machine -----

  lemma {:induction false} OwnerRunsJoin(o: C.Owners, xs: seq<C.ConnEvent>, ys: seq<C.ConnEvent>)
    requires C.IsRun(o, xs) && C.IsRun(C.After(o, xs), ys)
    ensures C.IsRun(o, xs + ys) && C.After(o, xs + ys) == C.After(C.After(o, xs), ys)
    decreases |xs|
  {
    hide C.Apply, C.Enabled;
    if xs == [] {
      assert xs + ys == ys;
    } else {
      OwnerRunsJoin(C.Apply(o, xs[0]), xs[1..], ys);
      assert (xs + ys)[1..] == xs[1..] + ys;
    }
  }

  /** noq's output as an event of the ownership machine. */
  function OutputEvent(out: NoqOutput): Option<C.ConnEvent> {
    match out
    case ConnectedEvent(h, tlsPeer) => Some(C.Connected(h, tlsPeer))
    case LostEvent(h, reason) => Some(C.Lost(h, reason))
    case DrainedNow(h) => Some(C.Drained(h))
    case _ => None
  }

  lemma {:induction false} DrainIsARun(o: C.Owners, r: Routes, outs: seq<NoqOutput>) returns (xs: seq<C.ConnEvent>)
    requires OutputsFit(o, r, outs)
    ensures C.IsRun(o, xs) && C.After(o, xs) == DrainAllOwners(o, r, outs)
    decreases |outs|
  {
    hide C.Apply, C.Enabled;
    if outs == [] {
      xs := [];
    } else {
      var before, last := outs[..|outs| - 1], outs[|outs| - 1];
      xs := DrainIsARun(o, r, before);
      var e := OutputEvent(last);
      if e.Some? {
        var ys := [e.value];
        assert C.IsRun(C.After(o, xs), ys);
        OwnerRunsJoin(o, xs, ys);
        xs := xs + ys;
      }
    }
  }

  /** The ownership machine's step inside a system step other than a drain. */
  function OwnerStepOf(s: System, e: Event): Option<C.ConnEvent>
    requires Enabled(s, e)
  {
    match e
    case Task(Connect(peer, _, _, _, h)) =>
      if s.relays.closed || h == None then None else Some(C.Dialed(h.value, peer))
    case Task(Owner(c)) => Some(c)
    case Task(EndpointClose) => if s.relays.closed then None else Some(C.AllClosed)
    case Select(RelayReady(_, _, GotDatagram(source, v), _, _)) => IncomingOf(s, Some(source), v)
    case Select(UdpReady(_, v)) => IncomingOf(s, None, v)
    case Select(ChannelReady(id, ChannelDatagram(v))) =>
      if id in s.routes.channels then IncomingOf(s, Some(s.routes.channels[id].peer), v) else None
    case _ => None
  }

  function IncomingOf(s: System, source: Option<EndpointId>, v: Verdict): Option<C.ConnEvent> {
    if v.NewConnection? && !s.relays.closed && v.failure == None then Some(C.Incoming(v.handle, source)) else None
  }

  lemma TaskStepsOwners(s: System, e: TaskEvent)
    requires TaskEnabled(s, e)
    ensures
      var x := OwnerStepOf(s, Task(e));
      && (x.Some? ==> C.Enabled(s.owners, x.value))
      && TaskApply(s, e).owners == if x.Some? then C.Apply(s.owners, x.value) else s.owners
  {
    hide R.Apply, C.Apply, RegisterChannel, DialStandin;
  }

  lemma FlushStepsOwners(s: System, e: FlushEvent)
    requires FlushEnabled(s, e) && !e.Turn?
    ensures FlushApply(s, e).owners == s.owners && OwnerStepOf(s, Flush(e)) == None
  {
    if e.ArmTurn? {
      hide R.Apply, NewIds, C.AllSettled;
    } else {
      MiddleFlush(s, e);
      hide FlushApply;
    }
  }

  lemma DatagramStepsOwners(s: System, addr: SocketAddr, source: Option<EndpointId>, v: Verdict)
    requires VerdictFits(s.owners, v)
    ensures
      var x := IncomingOf(s, source, v);
      && (x.Some? ==> C.Enabled(s.owners, x.value))
      && DatagramStep(s, addr, source, v).owners == if x.Some? then C.Apply(s.owners, x.value) else s.owners
  {
    hide C.Apply, HandleRoutes;
  }

  lemma RelayReadyStepsOwners(s: System, e: SelectEvent)
    requires SelectEnabled(s, e) && e.RelayReady?
    ensures
      var x := if e.result.GotDatagram? then IncomingOf(s, Some(e.result.source), e.result.verdict) else None;
      && (x.Some? ==> C.Enabled(s.owners, x.value))
      && RelayReadyStep(s, e.key, e.conn, e.result, e.now, e.spread).owners
         == if x.Some? then C.Apply(s.owners, x.value) else s.owners
  {
    ReceivedKeepsClosed(s.relays, R.Received(e.key, e.conn, !e.result.RecvFailed?, e.now, e.spread));
    hide R.Apply, C.Apply, AddrForPeer, HandleRoutes, G.ReceiveSignal;
  }

  lemma ChannelReadyStepsOwners(s: System, e: SelectEvent)
    requires SelectEnabled(s, e) && e.ChannelReady?
    ensures
      var x := if e.outcome.ChannelDatagram? && e.id in s.routes.channels
               then IncomingOf(s, Some(s.routes.channels[e.id].peer), e.outcome.verdict) else None;
      && (x.Some? ==> C.Enabled(s.owners, x.value))
      && ChannelReadyStep(s, e.id, e.outcome).owners == if x.Some? then C.Apply(s.owners, x.value) else s.owners
  {
    hide C.Apply, AddrForPeer, HandleRoutes, RetireChannel;
  }

  lemma SelectStepsOwners(s: System, e: SelectEvent)
    requires SelectEnabled(s, e)
    ensures
      var x := OwnerStepOf(s, Select(e));
      && (x.Some? ==> C.Enabled(s.owners, x.value))
      && SelectApply(s, e).owners == if x.Some? then C.Apply(s.owners, x.value) else s.owners
  {
    hide R.Apply, C.Apply, C.Enabled, Sweep, DatagramStep, RelayReadyStep, ChannelReadyStep;
    match e {
      case RelayReady(_, _, _, _, _) => RelayReadyStepsOwners(s, e);
      case UdpReady(remote, v) => DatagramStepsOwners(s.(pc := TurnTop), remote, None, v);
      case ChannelReady(_, _) => ChannelReadyStepsOwners(s, e);
      case _ =>
    }
  }

  lemma StepsOwners(s: System, e: Event) returns (xs: seq<C.ConnEvent>)
    requires Enabled(s, e)
    ensures C.IsRun(s.owners, xs) && C.After(s.owners, xs) == Apply(s, e).owners
  {
    if e.Flush? && e.flush.Turn? {
      xs := DrainIsARun(s.owners, s.routes, e.flush.outputs);
    } else {
      match e {
        case Task(t) => TaskStepsOwners(s, t);
        case Flush(f) => FlushStepsOwners(s, f);
        case Select(c) => SelectStepsOwners(s, c);
      }
      hide C.Apply, C.Enabled, TaskApply, FlushApply, SelectApply;
      var x := OwnerStepOf(s, e);
      xs := if x.Some? then [x.value] else [];
    }
  }

  lemma {:induction false} RunsOwners(s: System, es: seq<Event>) returns (xs: seq<C.ConnEvent>)
    requires IsRun(s, es)
    ensures C.IsRun(s.owners, xs) && C.After(s.owners, xs) == After(s, es).owners
    decreases |es|
  {
    hide Apply, Enabled, C.Apply, C.Enabled;
    if es == [] {
      xs := [];
    } else {
      var head := StepsOwners(s, es[0]);
      var tail := RunsOwners(Apply(s, es[0]), es[1..]);
      OwnerRunsJoin(s.owners, head, tail);
      xs := head + tail;
    }
  }

  /** In the whole endpoint, a reference whose slot was reused is stale for good. */
  lemma StaleInEveryRun(s: System, es: seq<Event>, ref: C.Ref)
    requires SystemInv(s) && IsRun(s, es)
    requires C.Stamped(s.owners.conns, ref) && !C.IsCurrent(s.owners.conns, ref)
    ensures !C.IsCurrent(After(s, es).owners.conns, ref)
  {
    hide SystemInv, C.OwnersInv, Apply, Enabled, C.Stamped;
    InvParts(s);
    var xs := RunsOwners(s, es);
    C.StaleForever(s.owners, xs, ref);
  }

  /** Whatever is dialed, cancelled, accepted, dropped, lost and reused, and in
      whatever order: a live connection has one owner or is an accepted one in
      its handshake, the unclaimed ones are within the backlog, and acceptors
      got connections once, in the order they connected. */
  lemma ConnectionsAreAccountedFor(homeUrl: R.Url, now: Instant, webrtc: bool, udpBound: bool, es: seq<Event>, h: C.Handle)
    requires IsRun(Bind(homeUrl, now, webrtc, udpBound), es)
    ensures
      var o := After(Bind(homeUrl, now, webrtc, udpBound), es).owners;
      && C.AcceptBacklog(o.conns) <= C.ACCEPT_BACKLOG
      && (h in o.conns.entries && C.Live(o.conns.entries[h]) ==>
            C.OwnerCount(o, C.Ref(h, o.conns.entries[h].epoch)) == if C.InHandshake(o.conns.entries[h]) then 0 else 1)
      && (forall i :: 0 <= i < |o.popped| ==> i < |o.connectedLog| && o.popped[i].ref == o.connectedLog[i])
      && (forall i, j :: 0 <= i < j < |o.popped| ==> o.popped[i].ref != o.popped[j].ref)
  {
    hide Apply, Enabled, C.Apply, C.Enabled, C.OwnerCount, C.AcceptBacklog, C.Live, C.InHandshake;
    var xs := RunsOwners(Bind(homeUrl, now, webrtc, udpBound), es);
    assert Bind(homeUrl, now, webrtc, udpBound).owners == C.NoConns();
    C.EveryLiveConnectionIsOwned(xs, h);
    C.AcceptedOnceInOrder(After(Bind(homeUrl, now, webrtc, udpBound), es).owners, xs);
  }

  // ----- who a connection is with -----

  /** The address noq knows a step's new connection by. */
  function NewRemote(s: System, e: Event): Option<SocketAddr>
    requires Enabled(s, e)
  {
    match e
    case Task(Connect(peer, direct, dialKey, _, _)) =>
      if direct.Some? then direct else Some(DialStandin(s.routes, peer, dialKey).1)
    case Select(RelayReady(key, _, GotDatagram(source, _), _, _)) => Some(AddrForPeer(s.routes, source, key).1)
    case Select(UdpReady(remote, _)) => Some(remote)
    case Select(ChannelReady(id, ChannelDatagram(_))) =>
      if id in s.routes.channels
      then Some(AddrForPeer(s.routes, s.routes.channels[id].peer, s.routes.channels[id].fallbackRelay).1)
      else None
    case _ => None
  }

  /** The new connection must authenticate as the owner of the address. */
  ghost predicate ExpectsOwner(x: C.ConnEvent, r: Routes, addr: SocketAddr) {
    && addr in r.addrToPeer
    && match x
       case Dialed(_, peer) => peer == r.addrToPeer[addr]
       case Incoming(_, source) => source == Some(r.addrToPeer[addr])
       case _ => false
  }

  /** A connection over a standin, dialed or incoming, must authenticate as the
      standin's owner. */
  lemma ExpectedPeerOwnsTheStandin(s: System, e: Event)
    requires RoutesInv(s.routes) && Enabled(s, e) && NewRemote(s, e).Some? && IsStandin(NewRemote(s, e).value)
    ensures OwnerStepOf(s, e).Some? ==> ExpectsOwner(OwnerStepOf(s, e).value, Apply(s, e).routes, NewRemote(s, e).value)
  {
    hide RoutesInv, IsStandin, ExpectsOwner, DialStandin, AddrForPeer;
    match e {
      case Task(Connect(peer, direct, dialKey, upgradeKey, h)) =>
        hide SelectApply, FlushApply, ConnectStep;
        if direct == None && h.Some? && !s.relays.closed {
          DialExpectsOwner(s, e.task);
        }
      case Select(RelayReady(key, conn, GotDatagram(source, v), now, spread)) =>
        hide TaskApply, FlushApply, RelayReadyStep, ChannelReadyStep;
        if v.NewConnection? {
          RelayNewcomerExpectsOwner(s, e.select);
        }
      case Select(ChannelReady(id, ChannelDatagram(v))) =>
        hide TaskApply, FlushApply, RelayReadyStep, ChannelReadyStep;
        if id in s.routes.channels && v.NewConnection? {
          ChannelNewcomerExpectsOwner(s, e.select);
        }
      case _ =>
    }
  }

  lemma DialExpectsOwner(s: System, e: TaskEvent)
    requires RoutesInv(s.routes) && TaskEnabled(s, e) && e.Connect? && e.direct == None && e.handle.Some? && !s.relays.closed
    ensures ExpectsOwner(C.Dialed(e.handle.value, e.peer),
                         ConnectStep(s, e.peer, e.direct, e.dialKey, e.upgradeKey, e.handle).routes,
                         DialStandin(s.routes, e.peer, e.dialKey).1)
  {
    DialStandinKeeps(s.routes, e.peer, e.dialKey);
    hide RoutesInv, BookGrows, DialStandin, C.Apply, C.Enabled;
  }

  lemma RelayNewcomerExpectsOwner(s: System, e: SelectEvent)
    requires RoutesInv(s.routes) && SelectEnabled(s, e) && e.RelayReady? && e.result.GotDatagram? && e.result.verdict.NewConnection?
    ensures ExpectsOwner(C.Incoming(e.result.verdict.handle, Some(e.result.source)),
                         RelayReadyStep(s, e.key, e.conn, e.result, e.now, e.spread).routes,
                         AddrForPeer(s.routes, e.result.source, e.key).1)
  {
    ReceivedKeepsClosed(s.relays, R.Received(e.key, e.conn, true, e.now, e.spread));
    NewcomerIsRouted(s.routes, e.result.source, e.key, s.owners.conns, s.relays.closed, e.result.verdict);
    hide RoutesInv, AddrForPeer, HandleRoutes, C.Apply, R.Apply;
  }

  lemma ChannelNewcomerExpectsOwner(s: System, e: SelectEvent)
    requires RoutesInv(s.routes) && SelectEnabled(s, e) && e.ChannelReady? && e.id in s.routes.channels
    requires e.outcome.ChannelDatagram? && e.outcome.verdict.NewConnection?
    ensures
      var entry := s.routes.channels[e.id];
      ExpectsOwner(C.Incoming(e.outcome.verdict.handle, Some(entry.peer)), ChannelReadyStep(s, e.id, e.outcome).routes,
                   AddrForPeer(s.routes, entry.peer, entry.fallbackRelay).1)
  {
    var entry := s.routes.channels[e.id];
    NewcomerIsRouted(s.routes, entry.peer, entry.fallbackRelay, s.owners.conns, s.relays.closed, e.outcome.verdict);
    hide RoutesInv, AddrForPeer, HandleRoutes, C.Apply;
  }

  lemma NewcomerIsRouted(r: Routes, peer: EndpointId, via: nat, c: C.Conns, closed: bool, v: Verdict)
    requires RoutesInv(r) && HostsLeft(r)
    ensures
      var (r1, addr) := AddrForPeer(r, peer, via);
      var t := HandleRoutes(r1, c, closed, addr, Some(peer), v);
      addr in t.addrToPeer && t.addrToPeer[addr] == peer
  {
    AddrForPeerKeeps(r, peer, via);
    hide RoutesInv, AddrForPeer, BookGrows;
  }

  /** In the whole endpoint, no connection is surfaced unauthenticated: whatever an
      acceptor can be given, a dial resolve to or a resource name, while in its
      slot, has the identity its handshake proved, and it is the expected one. */
  lemma SurfacedInEveryRun(homeUrl: R.Url, now: Instant, webrtc: bool, udpBound: bool, es: seq<Event>, ref: C.Ref)
    requires IsRun(Bind(homeUrl, now, webrtc, udpBound), es)
    ensures
      var o := After(Bind(homeUrl, now, webrtc, udpBound), es).owners;
      C.IsCurrent(o.conns, ref) && (ref in o.conns.acceptQueue || ref in o.resources || C.PollDial(o.conns, ref).DialDone?) ==>
        var entry := o.conns.entries[ref.handle];
        entry.peer.Some? && (entry.expectedPeer == None || entry.expectedPeer == entry.peer)
  {
    var xs := RunsOwners(Bind(homeUrl, now, webrtc, udpBound), es);
    assert Bind(homeUrl, now, webrtc, udpBound).owners == C.NoConns();
    hide Apply, Enabled, C.Apply, C.Enabled, Bind, C.PollDial;
    C.SurfacedIsAuthentic(xs, ref);
  }
}

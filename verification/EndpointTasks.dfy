/** The steps of resource methods, guards and session tasks, as the code takes
    them between two awaits (endpoint/src/endpoint_impl.rs, endpoint/src/webrtc.rs).
    As for the pump, each method moves the shared state as a function on views
    says, and each such function is the machine's task step. */
module EndpointTasks {
  import opened Types
  import opened Routing
  import opened Redial
  import opened Wakeups
  import opened Runtime
  import opened EndpointState
  import opened PumpTask
  import opened RuntimeRuns
  import opened RuntimeSafety
  import R = RelayPool
  import G = Signaling
  import C = Connections
  import Q = StreamCalls

  // ----- the steps of tasks, on views -----

  function OnKick(v: View): View { v.(wake := KickPump(v.wake)) }

  function OnWake(v: View): View { v.(wake := WakeWaiters(v.wake)) }

  function OnEnsure(v: View, url: R.Url): View { v.(pool := R.EnsureStart(v.pool, url, v.closed).0) }

  function OnOpened(v: View, url: R.Url, dialed: Option<nat>): View {
    var v1 := OnWake(v.(pool := R.OpenResolved(v.pool, url, dialed)));
    if dialed.Some? then OnKick(v1) else v1
  }

  function OnClaimDropped(v: View, url: R.Url): View { OnWake(v.(pool := R.ReleaseClaim(v.pool, url))) }

  function OnConnect(v: View, peer: EndpointId, direct: Option<SocketAddr>, dialKey: nat,
                     upgradeKey: Option<nat>, h: Option<C.Handle>): View
  {
    if v.closed then v
    else
      var v1 := v.(routes := if direct == None then DialStandin(v.routes, peer, dialKey).0 else v.routes);
      if h == None then v1
      else
        OnKick(v1.(
          conns := C.Insert(v.conns, h.value, Some(peer), false),
          signals := if upgradeKey == None then v.signals else WantsUpgrade(v.signals, peer, upgradeKey.value)))
  }

  /** An upgrade of `peer` through relay `key` is left for the pump to spawn. */
  function WantsUpgrade(g: G.Signals, peer: EndpointId, key: nat): G.Signals {
    g.(pendingUpgrades := g.pendingUpgrades + [(peer, key)])
  }

  /** A close through a reference kicks the pump exactly when it closes something. */
  function OnCloseConn(v: View, ref: C.Ref): View {
    var v1 := v.(conns := C.CloseRef(v.conns, ref));
    if C.IsCurrent(v.conns, ref) && C.Closable(v.conns.entries[ref.handle]) then OnKick(v1) else v1
  }

  function OnClose(v: View): View {
    if v.closed then v else OnWake(OnKick(v.(closed := true, conns := C.CloseAll(v.conns))))
  }

  function OnPublish(v: View, peer: EndpointId, payload: seq<byte>): View {
    match G.SignalingRelay(v.signals, peer)
    case Some(relay) => OnKick(v.(routes := PushSignal(v.routes, relay, peer, payload)))
    case None => v
  }

  /** An open channel's registration, with the relay of the peer's held slot, if any, to fall back to. */
  function OnRegister(v: View, peer: EndpointId, wire: ChannelWire): View {
    if v.closed then v
    else
      var fallback := match G.SignalingRelay(v.signals, peer) case Some(relay) => relay case None => HOME_RELAY;
      OnKick(v.(routes := RegisterChannel(v.routes, peer, wire, fallback)))
  }

  function OnSessionEnd(v: View, peer: EndpointId): View { v.(signals := G.EndSignaling(v.signals, peer)) }

  // ----- they are the machine's steps -----

  lemma DialerIsTheMachines(s: System, d: R.RelayEvent)
    requires TaskEnabled(s, Dialer(d))
    ensures
      var v := ViewOf(TaskApply(s, Dialer(d)));
      match d
      case EnsureCalled(_, url) => v == OnEnsure(ViewOf(s), url)
      case DialResolved(id, ok) =>
        v == OnOpened(ViewOf(s), s.relays.dialers[id].url, if ok then Some(s.relays.nextConn) else None)
      case DialCancelled(id) => v == OnClaimDropped(ViewOf(s), s.relays.dialers[id].url)
      case _ => v == ViewOf(s)
  {
    hide R.Normalize, R.OpenResolved, R.ReleaseClaim, R.EnsureStart, R.EnsureWait, KickPump, WakeWaiters;
  }

  lemma ConnectIsTheMachines(s: System, e: TaskEvent)
    requires TaskEnabled(s, e) && e.Connect?
    ensures ViewOf(TaskApply(s, e)) == OnConnect(ViewOf(s), e.peer, e.direct, e.dialKey, e.upgradeKey, e.handle)
  {
    hide ConnectStep, OnConnect, DialerStep, OwnerStep, StreamStep, CloseStep, PublishStep, ChannelStep;
    ConnectStepIsOnConnect(s, e.peer, e.direct, e.dialKey, e.upgradeKey, e.handle);
  }

  lemma ConnectStepIsOnConnect(s: System, peer: EndpointId, direct: Option<SocketAddr>, dialKey: nat,
                               upgradeKey: Option<nat>, h: Option<C.Handle>)
    requires h.Some? ==> C.Enabled(s.owners, C.Dialed(h.value, peer))
    ensures ViewOf(ConnectStep(s, peer, direct, dialKey, upgradeKey, h))
         == OnConnect(ViewOf(s), peer, direct, dialKey, upgradeKey, h)
  {
    hide DialStandin, C.Insert, KickPump, C.Apply;
    if h.Some? {
      DialedInserts(s.owners, h.value, peer);
    }
  }

  lemma DialedInserts(o: C.Owners, h: C.Handle, peer: EndpointId)
    requires C.Enabled(o, C.Dialed(h, peer))
    ensures C.Apply(o, C.Dialed(h, peer)).conns == C.Insert(o.conns, h, Some(peer), false)
  {
  }

  lemma AcceptIsTheMachines(s: System)
    ensures ViewOf(OwnerStep(s, C.AcceptPolled)) == ViewOf(s).(conns := C.AcceptPoll(s.owners.conns).0)
  {
    C.AcceptStepIsPoll(s.owners);
    hide C.AcceptStep, C.AcceptPoll;
  }

  lemma DialPollIsTheMachines(s: System, ref: C.Ref)
    requires ref in s.owners.guards
    ensures ViewOf(OwnerStep(s, C.DialPolled(ref))) == ViewOf(s)
  {
    FailedDialsNeedNoClose(s.owners.conns, ref);
    hide C.CloseRef, C.PollDial;
  }

  /** A cancelled dial, a close and a drop of a resource are one step on the shared state. */
  lemma CloseConnIsTheMachines(s: System, c: C.ConnEvent)
    requires C.Enabled(s.owners, c) && (c.DialCancelled? || c.ResourceClosed? || c.ResourceDropped?)
    ensures ViewOf(OwnerStep(s, c)) == OnCloseConn(ViewOf(s), c.ref)
  {
    ClosersClose(s.owners, c);
    hide C.Apply, C.CloseRef, KickPump;
  }

  lemma ClosersClose(o: C.Owners, c: C.ConnEvent)
    requires C.Enabled(o, c) && (c.DialCancelled? || c.ResourceClosed? || c.ResourceDropped?)
    ensures C.Apply(o, c).conns == C.CloseRef(o.conns, c.ref)
  {
  }

  /** A dial's wait ends in failure only when there is nothing left to close. */
  lemma FailedDialsNeedNoClose(c: C.Conns, ref: C.Ref)
    ensures C.PollDial(c, ref).DialFailed? ==> C.CloseRef(c, ref) == c
  {
  }

  /** A stream or datagram call reaches the shared state by its kick alone. */
  lemma StreamIsTheMachines(s: System, op: Q.StreamOp)
    requires Q.Fits(op)
    ensures ViewOf(StreamStep(s, op)) == if Q.Kicks(op) then OnKick(ViewOf(s)) else ViewOf(s)
  {
    hide Q.Fits, Q.Kicks, Q.Loads, Q.ConsumesReset, KickPump;
  }

  lemma CloseIsTheMachines(s: System)
    ensures ViewOf(TaskApply(s, EndpointClose)) == OnClose(ViewOf(s))
  {
    hide C.CloseAll, KickPump, WakeWaiters;
  }

  lemma SessionIsTheMachines(s: System, e: TaskEvent)
    requires TaskEnabled(s, e) && (e.Publish? || e.ReadsSignal? || e.SessionFails?)
    ensures
      var v, peer := ViewOf(TaskApply(s, e)), s.sessions.live[e.session].peer;
      match e
      case Publish(_, payload) => v == OnPublish(ViewOf(s), peer, payload)
      case ReadsSignal(_) => v == ViewOf(s).(signals := G.PopInbox(s.sessions.signals, peer).0)
      case SessionFails(_) => v == OnSessionEnd(ViewOf(s), peer)
      case _ => true
  {
    hide PushSignal, KickPump;
  }

  lemma UpgradeIsTheMachines(s: System, peer: EndpointId, via: nat)
    requires TaskEnabled(s, UpgradeBegins(peer, via))
    ensures ViewOf(TaskApply(s, UpgradeBegins(peer, via)))
         == ViewOf(s).(signals := G.BeginSignaling(s.sessions.signals, peer, via).0)
  {
  }

  /** The offerer's slot is released before its channel registers, the answerer's after. */
  lemma ChannelIsTheMachines(s: System, id: nat, wire: ChannelWire)
    requires TaskEnabled(s, ChannelOpens(id, wire))
    ensures
      var v, session := ViewOf(TaskApply(s, ChannelOpens(id, wire))), s.sessions.live[id];
      v == if session.role.Offerer? then OnRegister(OnSessionEnd(ViewOf(s), session.peer), session.peer, wire)
           else OnSessionEnd(OnRegister(ViewOf(s), session.peer, wire), session.peer)
  {
    hide RegisterChannel, KickPump;
  }

  /** No task touches the pump's own variables. */
  lemma TasksLeaveThePump(s: System, e: TaskEvent)
    requires TaskEnabled(s, e)
    ensures
      var t := TaskApply(s, e);
      t.relays.pump == s.relays.pump && t.forceWake == s.forceWake && t.channelRecvs == s.channelRecvs
  {
    hide TaskApply, TaskEnabled, R.Apply, R.Enabled;
    TaskKeepsPc(s, e);
    TasksSendNothing(s, e);
    TaskStepsRelays(s, e);
    TasksStepDialers(s, e);
    var x := RelayStepOf(s, Task(e));
    match x {
      case Some(d) =>
        if d.EndpointClosed? {
          ClosingLeavesThePump(s.relays);
        } else {
          DialersLeaveThePump(s.relays, d);
        }
      case None =>
    }
  }

  lemma TasksStepDialers(s: System, e: TaskEvent)
    requires TaskEnabled(s, e)
    ensures var x := RelayStepOf(s, Task(e)); x.Some? ==> IsDialerStep(x.value) || x.value.EndpointClosed?
  {
  }

  lemma DialersLeaveThePump(s: R.Relays, d: R.RelayEvent)
    requires IsDialerStep(d) && R.Enabled(s, d)
    ensures R.Apply(s, d).pump == s.pump
  {
    hide R.Normalize;
  }

  lemma ClosingLeavesThePump(s: R.Relays)
    ensures R.Apply(s, R.EndpointClosed).pump == s.pump
  {
  }

  // ----- the endpoint resource -----

  datatype AcceptResult = Accepted(ref: C.Ref) | AcceptClosed | AcceptPending

  class EndpointRes {
    const shared: State

    constructor (shared: State)
      ensures this.shared == shared
    {
      this.shared := shared;
    }

    /** `ensure_relay` up to its dial or its wait. */
    method EnsureRelay(url: R.Url) returns (r: R.EnsureResult)
      modifies shared`relayOpening
      ensures (shared.PoolNow(), r) == R.EnsureStart(old(shared.PoolNow()), url, shared.closed)
    {
      hide R.Normalize;
      var normalized := R.Normalize(url);
      if normalized in shared.relayKeys {
        return R.Pooled(shared.relayKeys[normalized]);
      }
      if shared.closed {
        return R.Refused;
      }
      if normalized in shared.relayOpening {
        return R.MustWait;
      }
      shared.relayOpening := shared.relayOpening + {normalized};
      return R.Claimed;
    }

    /** The claimed dial resolved: the claim is given back either way, and the
        waiting dialers are woken to the outcome. */
    method RelayDialed(claim: RelayClaim, url: R.Url, dialed: Option<nat>) returns (key: Option<nat>)
      requires claim.shared == shared && claim.normalized == R.Normalize(url)
      modifies claim`armed, shared`relayOpening, shared`nextRelayKey, shared`relayPool, shared`relayKeys,
               shared`newRelays, shared`waiters, shared`ready, shared`pumpKicked, shared`pumpWaker, shared`pumpReady
      ensures !claim.armed && key == if dialed.Some? then Some(old(shared.nextRelayKey)) else None
      ensures shared.PoolNow() == R.OpenResolved(old(shared.PoolNow()), url, dialed)
      ensures var woken := Wakeups.WakeWaiters(old(shared.WakeNow()));
        shared.WakeNow() == if dialed.Some? then Wakeups.KickPump(woken) else woken
    {
      hide R.Normalize, R.RegisterRelay, Wakeups.WakeWaiters, Wakeups.KickPump;
      claim.armed := false;
      shared.relayOpening := shared.relayOpening - {claim.normalized};
      shared.WakeWaiters();
      match dialed
      case Some(conn) =>
        var registered := shared.RegisterRelay(url, conn);
        return Some(registered);
      case None =>
        return None;
    }

    /** One poll of a dialer that waits for a concurrent open. */
    method EnsureRelayPoll(url: R.Url, timedOut: bool) returns (r: R.WaitResult)
      ensures r == R.EnsureWait(shared.PoolNow(), url, shared.closed, timedOut)
    {
      var normalized := R.Normalize(url);
      if normalized in shared.relayKeys {
        return R.WaitKey(shared.relayKeys[normalized]);
      }
      if normalized !in shared.relayOpening {
        return R.WaitFailed(ConnectFailed);
      }
      if shared.closed {
        return R.WaitFailed(Closed);
      }
      return if timedOut then R.WaitFailed(TimedOut) else R.StillWaiting;
    }

    /** The address noq is to dial: the direct one, or the peer's standin, which
        an explicit dial moves while it is routed to some relay. */
    method DialAddress(peer: EndpointId, direct: Option<SocketAddr>, dialKey: nat) returns (remote: SocketAddr)
      modifies shared`peerToAddr, shared`addrToPeer, shared`nextHost, shared`routes
      ensures direct.Some? ==> remote == direct.value && shared.RoutesNow() == old(shared.RoutesNow())
      ensures direct == None ==> (shared.RoutesNow(), remote) == DialStandin(old(shared.RoutesNow()), peer, dialKey)
    {
      hide Routing.AddrForPeer;
      if direct.Some? {
        return direct.value;
      }
      remote := shared.AddrForPeer(peer, dialKey);
      if remote in shared.routes && shared.routes[remote].Relay? {
        shared.routes := shared.routes[remote := Relay(dialKey)];
      }
    }

    /** `connect` from its last await before the dial. `handle` is the slot noq
        gives the connection, if it takes the dial. */
    method ConnectDial(peer: EndpointId, direct: Option<SocketAddr>, dialKey: nat, upgradeKey: Option<nat>,
                       handle: Option<C.Handle>) returns (ref: Option<C.Ref>)
      modifies shared`peerToAddr, shared`addrToPeer, shared`nextHost, shared`routes, shared`conns, shared`nextConnEpoch,
               shared`pendingUpgrades, shared`pumpKicked, shared`pumpWaker, shared`pumpReady
      ensures shared.RoutesNow() == if shared.closed || direct.Some? then old(shared.RoutesNow())
                                    else DialStandin(old(shared.RoutesNow()), peer, dialKey).0
      ensures shared.ConnsNow() == if ref == None then old(shared.ConnsNow())
                                   else C.Insert(old(shared.ConnsNow()), ref.value.handle, Some(peer), false)
      ensures shared.SignalsNow() == if ref == None || upgradeKey == None then old(shared.SignalsNow())
                                     else WantsUpgrade(old(shared.SignalsNow()), peer, upgradeKey.value)
      ensures shared.WakeNow() == if ref == None then old(shared.WakeNow()) else Wakeups.KickPump(old(shared.WakeNow()))
      ensures ref == if shared.closed || handle == None then None
                     else Some(C.Ref(handle.value, old(shared.ConnsNow()).nextEpoch))
    {
      hide DialStandin, C.Insert, Wakeups.KickPump, WantsUpgrade;
      hide State.RoutesNow, State.PoolNow, State.SignalsNow, State.ConnsNow, State.WakeNow;
      ref := None;
      if !shared.closed {
        var remote := DialAddress(peer, direct, dialKey);
        if handle.Some? {
          var dialed := AddDialed(peer, handle.value, upgradeKey);
          ref := Some(dialed);
        }
      }
    }

    /** The dialed connection's entry, its upgrade request, and the kick for its first flight. */
    method AddDialed(peer: EndpointId, handle: C.Handle, upgradeKey: Option<nat>) returns (ref: C.Ref)
      modifies shared`conns, shared`nextConnEpoch,
               shared`pendingUpgrades, shared`pumpKicked, shared`pumpWaker, shared`pumpReady
      ensures ref == C.Ref(handle, old(shared.ConnsNow()).nextEpoch)
      ensures shared.ConnsNow() == C.Insert(old(shared.ConnsNow()), handle, Some(peer), false)
      ensures shared.SignalsNow() == if upgradeKey == None then old(shared.SignalsNow())
                                     else WantsUpgrade(old(shared.SignalsNow()), peer, upgradeKey.value)
      ensures shared.WakeNow() == Wakeups.KickPump(old(shared.WakeNow()))
    {
      hide Wakeups.KickPump;
      var epoch := shared.nextConnEpoch;
      shared.nextConnEpoch := shared.nextConnEpoch + 1;
      shared.conns := shared.conns[handle := C.ConnEntry(epoch, Some(peer), None, false, false, None, false, false)];
      if upgradeKey.Some? {
        shared.pendingUpgrades := shared.pendingUpgrades + [(peer, upgradeKey.value)];
      }
      shared.KickPump();
      return C.Ref(handle, epoch);
    }

    /** One poll of `connect`'s wait. A failure drops the armed guard, which then
        finds nothing to close; success disarms it. */
    method ConnectPoll(guard: DialGuard) returns (r: C.DialPoll)
      requires guard.shared == shared && guard.armed
      modifies guard`armed, shared`conns, shared`pumpKicked, shared`pumpWaker, shared`pumpReady
      ensures r == C.PollDial(old(shared.ConnsNow()), guard.ref)
      ensures guard.armed == r.DialPending?
      ensures shared.ConnsNow() == old(shared.ConnsNow()) && shared.WakeNow() == old(shared.WakeNow())
    {
      var found := shared.EntryFor(guard.ref);
      if found == None {
        r := C.DialFailed(Closed);
      } else if found.value.error.Some? {
        var error := found.value.error.value;
        r := C.DialFailed(if error == Other then ConnectFailed else error);
      } else {
        r := if found.value.connected then C.DialDone else C.DialPending;
      }
      match r {
        case DialFailed(_) => guard.Drop();
        case DialDone => guard.armed := false;
        case DialPending =>
      }
    }

    /** One poll of `accept`: entries whose slot was reused are passed over. */
    method AcceptPoll() returns (r: AcceptResult)
      modifies shared`acceptQueue
      ensures (shared.ConnsNow(), r) ==
        var (c, ref) := C.AcceptPoll(old(shared.ConnsNow()));
        (c, if ref.Some? then Accepted(ref.value) else if shared.closed then AcceptClosed else AcceptPending)
    {
      while shared.acceptQueue != []
        invariant C.AcceptPoll(shared.ConnsNow()) == C.AcceptPoll(old(shared.ConnsNow()))
        decreases |shared.acceptQueue|
      {
        var ref := shared.acceptQueue[0];
        var found := shared.EntryFor(ref);
        shared.acceptQueue := shared.acceptQueue[1..];
        if found.Some? {
          return Accepted(ref);
        }
      }
      return if shared.closed then AcceptClosed else AcceptPending;
    }

    method Close()
      modifies shared`closed, shared`conns, shared`waiters, shared`ready,
               shared`pumpKicked, shared`pumpWaker, shared`pumpReady
      ensures
        var v := OnClose(old(SharedView(shared)));
        shared.closed && shared.ConnsNow() == v.conns && shared.WakeNow() == v.wake
    {
      hide C.CloseAll, Wakeups.KickPump, Wakeups.WakeWaiters;
      if !shared.closed {
        shared.closed := true;
        shared.CloseAll();
        shared.KickPump();
        shared.WakeWaiters();
      }
    }
  }

  /** The shared state alone; the pump's variables play no part in a task's step. */
  ghost function SharedView(st: State): View
    reads st
  {
    View(st.RoutesNow(), st.PoolNow(), R.PumpRelays(multiset{}, None, Backoff(0, None)), st.SignalsNow(), st.ConnsNow(),
         st.WakeNow(), st.closed, false, multiset{})
  }

  // ----- guards -----

  /** Releases a relay-open claim whose dialer was cancelled mid-open. */
  class RelayClaim {
    const shared: State
    const normalized: R.Url
    var armed: bool

    constructor (shared: State, normalized: R.Url)
      ensures this.shared == shared && this.normalized == normalized && armed
    {
      this.shared, this.normalized, armed := shared, normalized, true;
    }

    method Drop()
      modifies shared`relayOpening, shared`waiters, shared`ready
      ensures !armed ==> shared.PoolNow() == old(shared.PoolNow()) && shared.WakeNow() == old(shared.WakeNow())
      ensures armed ==>
        && shared.WakeNow() == Wakeups.WakeWaiters(old(shared.WakeNow()))
        && forall url :: R.Normalize(url) == normalized ==>
             shared.PoolNow() == R.ReleaseClaim(old(shared.PoolNow()), url)
    {
      if !armed {
        return;
      }
      shared.relayOpening := shared.relayOpening - {normalized};
      shared.WakeWaiters();
    }
  }

  /** Closes a dial whose `connect` was cancelled before it resolved. */
  class DialGuard {
    const shared: State
    const ref: C.Ref
    var armed: bool

    constructor (shared: State, ref: C.Ref)
      ensures this.shared == shared && this.ref == ref && armed
    {
      this.shared, this.ref, armed := shared, ref, true;
    }

    method Drop()
      modifies `armed, shared`conns, shared`pumpKicked, shared`pumpWaker, shared`pumpReady
      ensures !armed
      ensures
        var v := if old(armed) then OnCloseConn(old(SharedView(shared)), ref) else old(SharedView(shared));
        shared.ConnsNow() == v.conns && shared.WakeNow() == v.wake
    {
      hide C.CloseRef, Wakeups.KickPump;
      if armed {
        armed := false;
        shared.CloseConn(ref);
      }
    }
  }

  /** A connection resource: its close and its drop act only on its own connection. */
  class ConnectionRes {
    const shared: State
    const ref: C.Ref

    constructor (shared: State, ref: C.Ref)
      ensures this.shared == shared && this.ref == ref
    {
      this.shared, this.ref := shared, ref;
    }

    method Close()
      modifies shared`conns, shared`pumpKicked, shared`pumpWaker, shared`pumpReady
      ensures
        var v := OnCloseConn(old(SharedView(shared)), ref);
        shared.ConnsNow() == v.conns && shared.WakeNow() == v.wake
    {
      hide C.CloseRef, Wakeups.KickPump;
      shared.CloseConn(ref);
    }

    method Drop()
      modifies shared`conns, shared`pumpKicked, shared`pumpWaker, shared`pumpReady
      ensures
        var v := OnCloseConn(old(SharedView(shared)), ref);
        shared.ConnsNow() == v.conns && shared.WakeNow() == v.wake
    {
      Close();
    }

    /** `remote`: where noq's one network path leads, while it has one. */
    function Path(remote: Option<SocketAddr>): PathKind
      reads shared
    {
      if shared.EntryFor(ref) == None || remote == None then RelayPath
      else CurrentPath(shared.RoutesNow(), remote.value)
    }
  }

  // ----- signaling sessions -----

  /** Ends a peer's session slot however the session ends. */
  class SessionGuard {
    const shared: State
    const peer: EndpointId

    constructor (shared: State, peer: EndpointId)
      ensures this.shared == shared && this.peer == peer
    {
      this.shared, this.peer := shared, peer;
    }

    method Drop()
      modifies shared`signaling, shared`signalInboxes
      ensures shared.SignalsNow() == OnSessionEnd(old(SharedView(shared)), peer).signals
    {
      shared.EndSignaling(peer);
    }
  }

  /** `upgrade` up to its first await: refused, it makes no guard. */
  method BeginUpgrade(shared: State, peer: EndpointId, via: nat) returns (guard: Option<SessionGuard>)
    modifies shared`signaling
    ensures shared.SignalsNow() == G.BeginSignaling(old(shared.SignalsNow()), peer, via).0
    ensures guard.Some? == (peer !in old(shared.signaling))
    ensures guard.Some? ==> fresh(guard.value) && guard.value.shared == shared && guard.value.peer == peer
  {
    var begun := shared.BeginSignaling(peer, via);
    if !begun {
      return None;
    }
    var g := new SessionGuard(shared, peer);
    return Some(g);
  }

  method Publish(shared: State, peer: EndpointId, payload: seq<byte>) returns (ok: bool)
    modifies shared`relayOutbound, shared`pumpKicked, shared`pumpWaker, shared`pumpReady
    ensures ok == (peer in shared.signaling)
    ensures
      var v := OnPublish(old(SharedView(shared)), peer, payload);
      shared.RoutesNow() == v.routes && shared.WakeNow() == v.wake
  {
    hide PushSignal, KickPump;
    if peer !in shared.signaling {
      return false;
    }
    shared.PushSignalOutbound(shared.signaling[peer], peer, payload);
    return true;
  }

  datatype SignalPoll = NextSignal(payload: G.Payload) | SignalFailed(error: Error) | SignalPending

  /** One poll of `next_signal`'s wait. */
  method PollSignal(shared: State, peer: EndpointId, timedOut: bool) returns (r: SignalPoll)
    modifies shared`signalInboxes
    ensures shared.closed ==> r == SignalFailed(Closed) && shared.SignalsNow() == old(shared.SignalsNow())
    ensures !shared.closed ==>
      var (g, payload) := G.PopInbox(old(shared.SignalsNow()), peer);
      && shared.SignalsNow() == g
      && r == match payload
              case Some(p) => NextSignal(p)
              case None => if timedOut then SignalFailed(ConnectFailed) else SignalPending
  {
    if shared.closed {
      return SignalFailed(Closed);
    }
    var payload := shared.PopSignalInbox(peer);
    match payload
    case Some(p) => return NextSignal(p);
    case None => return if timedOut then SignalFailed(ConnectFailed) else SignalPending;
  }

  /** The offerer's channel is open: its guard drops as `dial` returns, then the channel registers. */
  method OffererOpened(guard: SessionGuard, wire: ChannelWire) returns (ok: bool, closes: seq<ChannelWire>)
    modifies guard.shared`signaling, guard.shared`signalInboxes,
             guard.shared`channels, guard.shared`newChannels, guard.shared`nextChannelId,
             guard.shared`peerToAddr, guard.shared`addrToPeer, guard.shared`nextHost, guard.shared`routes,
             guard.shared`pumpKicked, guard.shared`pumpWaker, guard.shared`pumpReady
    ensures
      var v := OnRegister(OnSessionEnd(old(SharedView(guard.shared)), guard.peer), guard.peer, wire);
      guard.shared.SignalsNow() == v.signals && guard.shared.RoutesNow() == v.routes && guard.shared.WakeNow() == v.wake
    ensures ok == !guard.shared.closed && closes == if ok then [] else [wire]
  {
    hide RegisterChannel, KickPump;
    guard.Drop();
    ok, closes := guard.shared.RegisterChannel(guard.peer, wire);
  }

  /** The answerer's channel is open: it registers while its guard still holds the slot. */
  method AnswererOpened(guard: SessionGuard, wire: ChannelWire) returns (ok: bool, closes: seq<ChannelWire>)
    modifies guard.shared`signaling, guard.shared`signalInboxes,
             guard.shared`channels, guard.shared`newChannels, guard.shared`nextChannelId,
             guard.shared`peerToAddr, guard.shared`addrToPeer, guard.shared`nextHost, guard.shared`routes,
             guard.shared`pumpKicked, guard.shared`pumpWaker, guard.shared`pumpReady
    ensures
      var v := OnSessionEnd(OnRegister(old(SharedView(guard.shared)), guard.peer, wire), guard.peer);
      guard.shared.SignalsNow() == v.signals && guard.shared.RoutesNow() == v.routes && guard.shared.WakeNow() == v.wake
    ensures ok == !guard.shared.closed && closes == if ok then [] else [wire]
  {
    hide RegisterChannel, KickPump;
    ok, closes := guard.shared.RegisterChannel(guard.peer, wire);
    guard.Drop();
  }
}

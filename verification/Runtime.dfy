/** The endpoint as one step machine: resource methods, guards and session
    tasks interleaved with the pump at its await points. Each step is the code
    between two awaits (endpoint/src/endpoint_impl.rs, endpoint/src/webrtc.rs). */
module Runtime {
  import opened Types
  import opened Routing
  import opened Redial
  import opened Wakeups
  import R = RelayPool
  import G = Signaling
  import C = Connections
  import Q = StreamCalls

  // ----- what noq hands the endpoint -----

  /** One output of noq during a drain, in the order the drain meets it. */
  datatype NoqOutput =
    | ConnectedEvent(handle: C.Handle, tlsPeer: Option<EndpointId>)
    | LostEvent(handle: C.Handle, reason: C.LostReason)
    | OtherEvent
    | Transmit(destination: SocketAddr, contents: seq<byte>)
    | DrainedNow(handle: C.Handle)

  /** noq's verdict on one inbound datagram. For a new connection: the slot it
      would take, the refusal it would send, and whether accepting it fails,
      with what response. */
  datatype Verdict =
    | ForConnection
    | NewConnection(handle: C.Handle, refusal: seq<byte>, failure: Option<Option<seq<byte>>>)
    | Respond(contents: seq<byte>)
    | Ignored

  // ----- steps shared with the imperative code -----

  /** What one noq output does to the connection entries. */
  function DrainConns(c: C.Conns, o: NoqOutput): C.Conns {
    match o
    case ConnectedEvent(h, tlsPeer) => if h in c.entries then C.OnConnected(c, h, tlsPeer) else c
    case LostEvent(h, reason) => if h in c.entries then C.OnLost(c, h, reason) else c
    case DrainedNow(h) => if h in c.entries then C.OnDrained(c, h) else c
    case _ => c
  }

  /** What one noq output does to the routes. */
  function DrainRoutes(r: Routes, o: NoqOutput): Routes
    requires RoutesAreOwned(r)
  {
    if o.Transmit? then RouteTransmit(r, o.destination, o.contents) else r
  }

  function DrainAllConns(c: C.Conns, os: seq<NoqOutput>): C.Conns {
    if os == [] then c else DrainConns(DrainAllConns(c, os[..|os| - 1]), os[|os| - 1])
  }

  function DrainAllRoutes(r: Routes, os: seq<NoqOutput>): (s: Routes)
    requires RoutesAreOwned(r)
    ensures RoutesAreOwned(s)
    ensures s.routes == r.routes && s.addrToPeer == r.addrToPeer
  {
    if os == [] then r else DrainRoutes(DrainAllRoutes(r, os[..|os| - 1]), os[|os| - 1])
  }

  /** `handle_datagram`: the entries and the response, if any. */
  function HandleConns(c: C.Conns, closed: bool, source: Option<EndpointId>, v: Verdict): C.Conns {
    if v.NewConnection? && !closed && v.failure == None then C.Admit(c, v.handle, source) else c
  }

  function Response(c: C.Conns, closed: bool, v: Verdict): Option<seq<byte>> {
    match v
    case NewConnection(_, refusal, failure) =>
      if closed then None
      else if C.AcceptBacklog(c) >= C.ACCEPT_BACKLOG then Some(refusal)
      else if failure.Some? then failure.value
      else None
    case Respond(contents) => Some(contents)
    case _ => None
  }

  function HandleRoutes(r: Routes, c: C.Conns, closed: bool, addr: SocketAddr, source: Option<EndpointId>, v: Verdict)
    : Routes
  {
    match Response(c, closed, v)
    case Some(contents) => PushResponse(r, addr, source, contents)
    case None => r
  }

  // ----- the machine -----

  /** Where the pump is. It awaits at the three sends and in its select. */
  datatype Pc =
    | TurnTop
    | FlushRelay | SendingRelay(key: nat, conn: nat)
    | FlushUdp | SendingUdp
    | FlushChannel | SendingChannel
    | Arming
    | Selecting
    | Parked
    | Ended

  /** `channelRecvs`: the channel receives in flight. `dirty`: noq holds events
      or packets a drain has not collected. `waiting` are the tasks parked in
      `wait_until`. `sent` is everything handed to a wire, in order. `udpBound`:
      whether a UDP socket exists. `resetUnflushed` is history: since the last
      drain, a read consumed a RESET and noq had credit to send for it. */
  datatype System = System(
    routes: Routes,
    relays: R.Relays,
    sessions: G.Sessions,
    owners: C.Owners,
    channelRecvs: multiset<nat>,
    wake: Wake,
    pc: Pc,
    forceWake: bool,
    dirty: bool,
    waiting: set<TaskId>,
    sent: seq<WireSend>,
    udpBound: bool,
    resetUnflushed: bool)

  /** The endpoint as `bind` leaves it: the home relay registered, the pump
      spawned. The registration's kick found no pump to wake. */
  function Bind(homeUrl: R.Url, now: Instant, webrtc: bool, udpBound: bool): System {
    System(NewRoutes(), R.Bound(homeUrl, now), G.NoSessions(webrtc), C.NoConns(), multiset{},
           KickPump(NoWakers()), TurnTop, false, false, {}, [], udpBound, false)
  }

  /** What a pool relay's resolved receive carried. */
  datatype RelayResult = GotDatagram(source: EndpointId, verdict: Verdict) | GotSignal(source: EndpointId, payload: seq<byte>) | RecvFailed

  /** What a channel's resolved receive carried; text messages carry nothing. */
  datatype ChannelResult = ChannelDatagram(verdict: Verdict) | ChannelText | ChannelDied

  /** Steps of resource methods, guards and session tasks. */
  datatype TaskEvent =
    | Dialer(relayEvent: R.RelayEvent)
    | Connect(peer: EndpointId, direct: Option<SocketAddr>, dialKey: nat, upgradeKey: Option<nat>, handle: Option<C.Handle>)
    | Owner(connEvent: C.ConnEvent)
    | StreamCall(ref: C.Ref, op: Q.StreamOp)
    | EndpointClose
    | UpgradeBegins(peer: EndpointId, via: nat)
    | Publish(session: nat, payload: seq<byte>)
    | ReadsSignal(session: nat)
    | SessionFails(session: nat)
    | ChannelOpens(session: nat, wire: ChannelWire)
    | WaiterPolled(task: TaskId, done: bool)
    | WaiterDropped(task: TaskId)

  /** The pump's steps from the top of its turn to its select. */
  datatype FlushEvent =
    | Turn(outputs: seq<NoqOutput>)
    | RelayTurn
    | RelaySent(ok: bool, now: Instant, spread: nat)
    | UdpTurn
    | UdpSent
    | ChannelTurn
    | ChannelSent
    | ArmTurn(lingered: bool)

  /** The arms of the pump's select, and its parking there. */
  datatype SelectEvent =
    | RelayReady(key: nat, conn: nat, result: RelayResult, now: Instant, spread: nat)
    | UdpReady(remote: SocketAddr, verdict: Verdict)
    | UdpDied
    | ChannelReady(id: nat, outcome: ChannelResult)
    | RedialReady(ok: bool, now: Instant, spread: nat)
    | KickReady
    | TickReady(now: Instant, dead: seq<(nat, nat)>)
    | Park
    | PumpResumes

  datatype Event = Task(task: TaskEvent) | Flush(flush: FlushEvent) | Select(select: SelectEvent)

  /** A dialer's steps: `ensure_relay` and its guard. */
  predicate IsDialerStep(e: R.RelayEvent) {
    e.EnsureCalled? || e.DialResolved? || e.DialCancelled? || e.WaitPolled? || e.WaitCancelled?
  }

  /** An owner's steps: `connect`'s wait and its guard, `accept`, a resource's close and drop. */
  predicate IsOwnerStep(e: C.ConnEvent) {
    e.DialPolled? || e.DialCancelled? || e.AcceptPolled? || e.ResourceClosed? || e.ResourceDropped?
  }

  /** noq's discipline over a drain: a connection connects at most once and not
      after it was lost; a standin it addresses is one it was given. */
  predicate OutputFits(o: C.Owners, r: Routes, out: NoqOutput) {
    match out
    case ConnectedEvent(h, tlsPeer) => C.Enabled(o, C.Connected(h, tlsPeer))
    case LostEvent(h, reason) => C.Enabled(o, C.Lost(h, reason))
    case DrainedNow(h) => C.Enabled(o, C.Drained(h))
    case Transmit(destination, _) => IsStandin(destination) ==> destination in r.addrToPeer
    case OtherEvent => true
  }

  function DrainOwners(o: C.Owners, r: Routes, out: NoqOutput): C.Owners
    requires OutputFits(o, r, out)
  {
    match out
    case ConnectedEvent(h, tlsPeer) => C.Apply(o, C.Connected(h, tlsPeer))
    case LostEvent(h, reason) => C.Apply(o, C.Lost(h, reason))
    case DrainedNow(h) => C.Apply(o, C.Drained(h))
    case _ => o
  }

  predicate OutputsFit(o: C.Owners, r: Routes, outs: seq<NoqOutput>)
    decreases |outs|, 0
  {
    outs == [] || (OutputsFit(o, r, outs[..|outs| - 1])
                   && OutputFits(DrainAllOwners(o, r, outs[..|outs| - 1]), r, outs[|outs| - 1]))
  }

  function DrainAllOwners(o: C.Owners, r: Routes, outs: seq<NoqOutput>): C.Owners
    requires OutputsFit(o, r, outs)
    decreases |outs|, 1
  {
    if outs == [] then o
    else DrainOwners(DrainAllOwners(o, r, outs[..|outs| - 1]), r, outs[|outs| - 1])
  }

  predicate VerdictFits(o: C.Owners, v: Verdict) {
    v.NewConnection? ==> v.handle !in o.conns.entries || o.conns.entries[v.handle].drained
  }

  predicate HostsLeft(r: Routes) { r.nextHost + 1 < U32_LIMIT }

  /** The sweep's dead verdicts, one connection after another; a key retired by
      an earlier verdict is gone from the pool. */
  predicate SweepFits(dead: seq<(nat, nat)>) {
    forall i :: 0 <= i < |dead| ==> dead[i].1 <= U16_MAX
  }

  function Sweep(s: R.Relays, now: Instant, dead: seq<(nat, nat)>): R.Relays
    requires SweepFits(dead)
    decreases |dead|
  {
    if dead == [] then s
    else
      var e := R.FoundDead(dead[0].0, now, dead[0].1);
      Sweep(if R.Enabled(s, e) then R.Apply(s, e) else s, now, dead[1..])
  }

  /** What a stream minted under `ref` finds at its connection's handle. */
  function FoundEntry(c: C.Conns, ref: C.Ref): Entry {
    match C.EntryFor(c, ref) case Some(e) => Present(e.error) case None => Gone
  }

  predicate TaskEnabled(s: System, e: TaskEvent) {
    match e
    case Dialer(d) => IsDialerStep(d) && R.Enabled(s.relays, d)
    case Connect(_, direct, _, _, h) =>
      && HostsLeft(s.routes) && (direct.Some? ==> !IsStandin(direct.value))
      && (h.Some? ==> h.value !in s.owners.conns.entries || s.owners.conns.entries[h.value].drained)
    case Owner(c) => IsOwnerStep(c) && C.Enabled(s.owners, c)
    case StreamCall(ref, op) => Q.Fits(op) && op.entry == FoundEntry(s.owners.conns, ref)
    case EndpointClose => true
    case UpgradeBegins(peer, via) => (peer, via) in s.sessions.spawned
    case Publish(id, _) => id in s.sessions.live
    case ReadsSignal(id) => id in s.sessions.live
    case SessionFails(id) => id in s.sessions.live
    case ChannelOpens(id, wire) =>
      id in s.sessions.live && wire.farEnd == s.sessions.live[id].peer && HostsLeft(s.routes)
    case WaiterPolled(_, _) => true
    case WaiterDropped(t) => t in s.waiting
  }

  predicate FlushEnabled(s: System, e: FlushEvent) {
    match e
    case Turn(outputs) => s.pc.TurnTop? && RoutesAreOwned(s.routes) && OutputsFit(s.owners, s.routes, outputs)
    case RelayTurn => s.pc.FlushRelay?
    case RelaySent(_, _, spread) => s.pc.SendingRelay? && spread <= U16_MAX
    case UdpTurn => s.pc.FlushUdp?
    case UdpSent => s.pc.SendingUdp?
    case ChannelTurn => s.pc.FlushChannel?
    case ChannelSent => s.pc.SendingChannel?
    case ArmTurn(_) => s.pc.Arming?
  }

  predicate SelectEnabled(s: System, e: SelectEvent) {
    match e
    case RelayReady(key, conn, result, _, spread) =>
      && s.pc.Selecting? && HostsLeft(s.routes) && (key, conn) in s.relays.pump.recvs && spread <= U16_MAX
      && (result.GotDatagram? ==> VerdictFits(s.owners, result.verdict))
    case UdpReady(remote, v) => s.pc.Selecting? && !IsStandin(remote) && VerdictFits(s.owners, v)
    case UdpDied => s.pc.Selecting?
    case ChannelReady(id, outcome) =>
      && s.pc.Selecting? && HostsLeft(s.routes) && id in s.channelRecvs
      && (outcome.ChannelDatagram? ==> VerdictFits(s.owners, outcome.verdict))
    case RedialReady(_, _, spread) => s.pc.Selecting? && s.relays.pump.redial.Some? && spread <= U16_MAX
    case KickReady => s.pc.Selecting? && s.wake.pumpKicked
    case TickReady(_, dead) => s.pc.Selecting? && SweepFits(dead)
    case Park => s.pc.Selecting? && !s.wake.pumpKicked
    case PumpResumes => s.pc.Parked?
  }

  predicate Enabled(s: System, e: Event) {
    match e
    case Task(t) => TaskEnabled(s, t)
    case Flush(f) => FlushEnabled(s, f)
    case Select(c) => SelectEnabled(s, c)
  }

  // ----- what each step does -----

  function Kicked(s: System): System { s.(wake := KickPump(s.wake)) }

  function Woken(s: System): System { s.(wake := WakeWaiters(s.wake)) }

  function DialerStep(s: System, d: R.RelayEvent): System
    requires R.Enabled(s.relays, d)
  {
    var s1 := s.(relays := R.Apply(s.relays, d));
    if d.DialResolved? then (if d.ok then Kicked(Woken(s1)) else Woken(s1))
    else if d.DialCancelled? then Woken(s1)
    else s1
  }

  /** `connect` from its last await before the dial: nothing on a closed
      endpoint; no entry (`h` is none) when noq refuses the dial. */
  function ConnectStep(s: System, peer: EndpointId, direct: Option<SocketAddr>, dialKey: nat,
                       upgradeKey: Option<nat>, h: Option<C.Handle>): System
    requires h.Some? ==> C.Enabled(s.owners, C.Dialed(h.value, peer))
  {
    if s.relays.closed then s
    else
      var s1 := s.(routes := if direct == None then DialStandin(s.routes, peer, dialKey).0 else s.routes);
      if h == None then s1
      else
        Kicked(s1.(
          owners := C.Apply(s.owners, C.Dialed(h.value, peer)),
          sessions := if upgradeKey.Some? then G.RequestUpgrade(s.sessions, peer, upgradeKey.value) else s.sessions,
          dirty := true))
  }

  /** This owner's step closes its connection. */
  predicate Closes(c: C.Conns, e: C.ConnEvent) {
    && (e.DialCancelled? || e.ResourceClosed? || e.ResourceDropped?)
    && C.IsCurrent(c, e.ref) && C.Closable(c.entries[e.ref.handle])
  }

  /** An owner's step kicks the pump exactly when it closes its connection. */
  function OwnerStep(s: System, c: C.ConnEvent): System
    requires C.Enabled(s.owners, c)
  {
    var s1 := s.(owners := C.Apply(s.owners, c));
    if Closes(s.owners.conns, c) then Kicked(s1.(dirty := true)) else s1
  }

  /** A stream or datagram method's poll: what it leaves noq to send, and its kick. */
  function StreamStep(s: System, op: Q.StreamOp): System
    requires Q.Fits(op)
  {
    var s1 := s.(dirty := s.dirty || Q.Loads(op), resetUnflushed := s.resetUnflushed || Q.ConsumesReset(op));
    if Q.Kicks(op) then Kicked(s1) else s1
  }

  function CloseStep(s: System): System {
    if s.relays.closed then s
    else
      Woken(Kicked(s.(relays := R.Apply(s.relays, R.EndpointClosed),
                      owners := C.Apply(s.owners, C.AllClosed), dirty := true)))
  }

  function PublishStep(s: System, id: nat, payload: seq<byte>): System
    requires id in s.sessions.live
  {
    var peer := s.sessions.live[id].peer;
    match G.SignalingRelay(s.sessions.signals, peer)
    case Some(relay) => Kicked(s.(routes := PushSignal(s.routes, relay, peer, payload)))
    case None => s
  }

  /** A session's channel opened: an offerer's guard drops before the channel
      registers, an answerer's after; a closed endpoint refuses the channel. */
  function ChannelStep(s: System, id: nat, wire: ChannelWire): System
    requires id in s.sessions.live
  {
    var peer, fallback := s.sessions.live[id].peer, G.ChannelFallback(s.sessions, id);
    var s1 := s.(sessions := G.EndSession(s.sessions, id));
    if s.relays.closed then s1
    else Kicked(s1.(routes := RegisterChannel(s.routes, peer, wire, fallback)))
  }

  function TurnStep(s: System, outputs: seq<NoqOutput>): System
    requires RoutesAreOwned(s.routes) && OutputsFit(s.owners, s.routes, outputs)
  {
    var s1 := s.(
      routes := DrainAllRoutes(s.routes, outputs),
      owners := DrainAllOwners(s.owners, s.routes, outputs),
      dirty := false, resetUnflushed := false, forceWake := false, pc := FlushRelay);
    if outputs != [] || s.forceWake then Woken(s1) else s1
  }

  function Logged(s: System, w: Option<WireSend>): System {
    if w.Some? then s.(sent := s.sent + [w.value]) else s
  }

  function RelayTurnStep(s: System): System {
    if s.routes.relayOutbound == [] then s.(pc := FlushUdp)
    else
      var key := s.routes.relayOutbound[0].key;
      var (routes, w) := PopRelay(s.routes, s.relays.pool.conns);
      Logged(s.(routes := routes, pc := if w.Some? then SendingRelay(key, s.relays.pool.conns[key]) else FlushRelay), w)
  }

  function UdpTurnStep(s: System): System {
    if s.routes.udpOutbound == [] then s.(pc := FlushChannel)
    else
      var (routes, w) := PopUdp(s.routes, s.udpBound);
      Logged(s.(routes := routes, pc := if w.Some? then SendingUdp else FlushUdp), w)
  }

  function ChannelTurnStep(s: System): System {
    if s.routes.channelOutbound == [] then s.(pc := Arming)
    else
      var (routes, w) := PopChannel(s.routes);
      Logged(s.(routes := routes, pc := if w.Some? then SendingChannel else FlushChannel), w)
  }

  function NewIds(newChannels: seq<(nat, ChannelWire)>): seq<nat> {
    if newChannels == [] then [] else NewIds(newChannels[..|newChannels| - 1]) + [newChannels[|newChannels| - 1].0]
  }

  /** Arms every new relay and channel and spawns the upgrades; the way out of the
      loop is open once the endpoint is closed and all is flushed, or the linger over. */
  function ArmStep(s: System, lingered: bool): System {
    var s1 := s.(relays := R.Apply(s.relays, R.Armed),
                 routes := s.routes.(newChannels := []),
                 channelRecvs := s.channelRecvs + multiset(NewIds(s.routes.newChannels)),
                 sessions := G.SpawnUpgrades(s.sessions));
    if s.relays.closed && (C.AllSettled(s.owners.conns) || lingered) then Woken(s1.(pc := Ended))
    else s1.(pc := Selecting)
  }

  /** A datagram enters noq under `addr`. */
  function DatagramStep(s: System, addr: SocketAddr, source: Option<EndpointId>, v: Verdict): System
    requires VerdictFits(s.owners, v)
  {
    s.(routes := HandleRoutes(s.routes, s.owners.conns, s.relays.closed, addr, source, v),
       owners := if v.NewConnection? && !s.relays.closed && v.failure == None
                 then C.Apply(s.owners, C.Incoming(v.handle, source)) else s.owners,
       dirty := true)
  }

  function RelayReadyStep(s: System, key: nat, conn: nat, result: RelayResult, now: Instant, spread: nat): System
    requires SelectEnabled(s, RelayReady(key, conn, result, now, spread))
  {
    var s1 := s.(relays := R.Apply(s.relays, R.Received(key, conn, !result.RecvFailed?, now, spread)), pc := TurnTop);
    match result
    case RecvFailed => s1
    case GotSignal(source, payload) =>
      if !s.sessions.signals.enabled || s.relays.closed then s1
      else Woken(s1.(sessions := G.ReceiveSignal(s.sessions, key, source, payload, s.relays.closed)))
    case GotDatagram(source, v) =>
      var (routes, addr) := AddrForPeer(s.routes, source, key);
      DatagramStep(s1.(routes := routes), addr, Some(source), v)
  }

  function ChannelReadyStep(s: System, id: nat, outcome: ChannelResult): System
    requires SelectEnabled(s, ChannelReady(id, outcome))
  {
    var resolved := s.channelRecvs - multiset{id};
    var rearmed := if id in s.routes.channels && !outcome.ChannelDied? then resolved + multiset{id} else resolved;
    var s1 := s.(channelRecvs := rearmed, pc := TurnTop);
    match outcome
    case ChannelText => s1
    case ChannelDied => s1.(routes := RetireChannel(s.routes, id))
    case ChannelDatagram(v) =>
      if id !in s.routes.channels then s1
      else
        var entry := s.routes.channels[id];
        var (routes, addr) := AddrForPeer(s.routes, entry.peer, entry.fallbackRelay);
        DatagramStep(s1.(routes := routes), addr, Some(entry.peer), v)
  }

  function RedialReadyStep(s: System, ok: bool, now: Instant, spread: nat): System
    requires s.relays.pump.redial.Some? && spread <= U16_MAX
  {
    var s1 := s.(relays := R.Apply(s.relays, R.RedialResolved(ok, now, spread)), pc := TurnTop);
    if ok && !s.relays.closed then Woken(s1) else s1
  }

  function TaskApply(s: System, e: TaskEvent): System
    requires TaskEnabled(s, e)
  {
    match e
    case Dialer(d) => DialerStep(s, d)
    case Connect(peer, direct, dialKey, upgradeKey, h) => ConnectStep(s, peer, direct, dialKey, upgradeKey, h)
    case Owner(c) => OwnerStep(s, c)
    case StreamCall(_, op) => StreamStep(s, op)
    case EndpointClose => CloseStep(s)
    case UpgradeBegins(peer, via) => s.(sessions := G.BeginUpgrade(s.sessions, peer, via))
    case Publish(id, payload) => PublishStep(s, id, payload)
    case ReadsSignal(id) => s.(sessions := G.ReadSignal(s.sessions, id))
    case SessionFails(id) => s.(sessions := G.EndSession(s.sessions, id))
    case ChannelOpens(id, wire) => ChannelStep(s, id, wire)
    case WaiterPolled(t, done) =>
      if done then s.(wake := ForgetWaiter(s.wake, t), waiting := s.waiting - {t})
      else s.(wake := ParkWaiter(s.wake, t), waiting := s.waiting + {t})
    case WaiterDropped(t) => s.(wake := ForgetWaiter(s.wake, t), waiting := s.waiting - {t})
  }

  function FlushApply(s: System, e: FlushEvent): System
    requires FlushEnabled(s, e)
  {
    match e
    case Turn(outputs) => TurnStep(s, outputs)
    case RelayTurn => RelayTurnStep(s)
    case RelaySent(ok, now, spread) =>
      s.(relays := if ok then s.relays else R.Apply(s.relays, R.SendFailed(s.pc.key, s.pc.conn, now, spread)),
         pc := FlushRelay)
    case UdpTurn => UdpTurnStep(s)
    case UdpSent => s.(pc := FlushUdp)
    case ChannelTurn => ChannelTurnStep(s)
    case ChannelSent => s.(pc := FlushChannel)
    case ArmTurn(lingered) => ArmStep(s, lingered)
  }

  function SelectApply(s: System, e: SelectEvent): System
    requires SelectEnabled(s, e)
  {
    match e
    case RelayReady(key, conn, result, now, spread) => RelayReadyStep(s, key, conn, result, now, spread)
    case UdpReady(remote, v) => DatagramStep(s.(pc := TurnTop), remote, None, v)
    case UdpDied => s.(pc := TurnTop)
    case ChannelReady(id, outcome) => ChannelReadyStep(s, id, outcome)
    case RedialReady(ok, now, spread) => RedialReadyStep(s, ok, now, spread)
    case KickReady => s.(wake := PollKicked(s.wake).0, pc := TurnTop)
    case TickReady(now, dead) =>
      s.(relays := Sweep(s.relays, now, dead), dirty := true, forceWake := true, pc := TurnTop)
    case Park => s.(wake := PollKicked(s.wake).0.(pumpReady := false), pc := Parked)
    case PumpResumes => s.(pc := Selecting)
  }

  function Apply(s: System, e: Event): System
    requires Enabled(s, e)
  {
    match e
    case Task(t) => TaskApply(s, t)
    case Flush(f) => FlushApply(s, f)
    case Select(c) => SelectApply(s, c)
  }

  // ----- what every step keeps -----

  /** Everything handed to a wire so far reached the peer it was for. */
  ghost predicate AllSentReach(s: System) {
    forall w :: w in s.sent ==> ReachesItsPeer(s.routes, w)
  }

  /** No waiter is forgotten; a parked pump is about to resume, or its waker is
      parked and no kick is pending; a forced wake is done before anything else. */
  ghost predicate WakersAreSet(s: System) {
    && NoneForgotten(s.wake, s.waiting)
    && (s.pc.Parked? ==> s.wake.pumpReady || (s.wake.pumpWaker && !s.wake.pumpKicked))
    && (s.forceWake ==> s.pc.TurnTop?)
  }

  /** How far through its turn the pump is. */
  function Rank(pc: Pc): nat {
    match pc
    case TurnTop => 0
    case Ended => 0
    case FlushRelay => 1
    case SendingRelay(_, _) => 1
    case FlushUdp => 2
    case SendingUdp => 2
    case FlushChannel => 3
    case SendingChannel => 3
    case Arming => 4
    case Selecting => 5
    case Parked => 5
  }

  /** Work the pump is already past is done, but for the credit of a consumed RESET. */
  ghost predicate Flushed(s: System) {
    && (Rank(s.pc) >= 1 && s.dirty ==> s.resetUnflushed)
    && (Rank(s.pc) >= 2 ==> s.routes.relayOutbound == [])
    && (Rank(s.pc) >= 3 ==> s.routes.udpOutbound == [])
    && (Rank(s.pc) >= 4 ==> s.routes.channelOutbound == [])
    && (Rank(s.pc) >= 5 ==>
          s.relays.pool.newRelays == [] && s.routes.newChannels == [] && s.sessions.signals.pendingUpgrades == [])
  }

  /** Work the pump is past, if there is any, has a kick pending for it. */
  ghost predicate NothingStranded(s: System) {
    && (s.wake.pumpKicked || Flushed(s))
    && (s.resetUnflushed ==> s.dirty)
  }

  /** Every channel receive that is in flight or waits to be armed. */
  ghost function ChannelReceives(r: Routes, recvs: multiset<nat>): multiset<nat> {
    recvs + multiset(NewIds(r.newChannels))
  }

  /** No channel is received twice, and every live one exactly once. */
  ghost predicate ChannelDiscipline(r: Routes, recvs: multiset<nat>) {
    && (forall id :: ChannelReceives(r, recvs)[id] <= 1)
    && (forall id :: id in ChannelReceives(r, recvs) ==> id <= r.nextChannelId)
    && (forall id :: id in r.channels ==> id in ChannelReceives(r, recvs))
  }

  /** A closed endpoint holds no connection that is not failed, drained or closed. */
  ghost predicate ShutDown(s: System) {
    s.relays.closed ==> C.NoneLive(s.owners.conns)
  }

  ghost predicate SystemInv(s: System) {
    && RoutesInv(s.routes) && AllSentReach(s) && ChannelDiscipline(s.routes, s.channelRecvs)
    && R.RelaysInv(s.relays) && G.SessionsInv(s.sessions) && C.OwnersInv(s.owners)
    && WakersAreSet(s) && NothingStranded(s) && ShutDown(s)
  }
}

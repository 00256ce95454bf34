/** The endpoint's I/O task, one method per stretch of code between two awaits
    (`pump` in endpoint/src/endpoint_impl.rs). Each method moves what the code
    keeps, the shared state and the pump's own variables, as a function on views
    says, and each such function is the machine's step seen through the view;
    `Simulation` puts the two together. */
module PumpTask {
  import opened Types
  import opened Routing
  import opened Redial
  import opened Wakeups
  import opened Runtime
  import opened RuntimeSafety
  import opened EndpointState
  import R = RelayPool
  import G = Signaling
  import C = Connections

  /** The part of the machine's state that the code keeps. */
  datatype View = View(
    routes: Routes,
    pool: R.Pool,
    pump: R.PumpRelays,
    signals: G.Signals,
    conns: C.Conns,
    wake: Wake,
    closed: bool,
    forceWake: bool,
    channelRecvs: multiset<nat>)

  function ViewOf(s: System): View {
    View(s.routes, s.relays.pool, s.relays.pump, s.sessions.signals, s.owners.conns, s.wake, s.relays.closed,
         s.forceWake, s.channelRecvs)
  }

  // ----- the pump's steps on views -----

  function OnTurn(v: View, outputs: seq<NoqOutput>): View
    requires RoutesAreOwned(v.routes)
  {
    v.(routes := DrainAllRoutes(v.routes, outputs),
       conns := DrainAllConns(v.conns, outputs),
       wake := if outputs != [] || v.forceWake then WakeWaiters(v.wake) else v.wake,
       forceWake := false)
  }

  /** The next relay item off its queue, and what goes to a wire for it. */
  function OnRelayTurn(v: View): (View, Option<WireSend>) {
    if v.routes.relayOutbound == [] then (v, None)
    else
      var (routes, send) := PopRelay(v.routes, v.pool.conns);
      (v.(routes := routes), send)
  }

  function OnUdpTurn(v: View, bound: bool): (View, Option<WireSend>) {
    if v.routes.udpOutbound == [] then (v, None)
    else
      var (routes, send) := PopUdp(v.routes, bound);
      (v.(routes := routes), send)
  }

  function OnChannelTurn(v: View): (View, Option<WireSend>) {
    if v.routes.channelOutbound == [] then (v, None)
    else
      var (routes, send) := PopChannel(v.routes);
      (v.(routes := routes), send)
  }

  function OnRelaySent(v: View, key: nat, conn: nat, ok: bool, now: Instant, spread: nat): View
    requires spread <= U16_MAX
  {
    if ok then v
    else
      var (pool, pump) := R.RelaySendFailed(v.pool, v.pump, key, conn, now, spread);
      v.(pool := pool, pump := pump)
  }

  function OnArm(v: View, lingered: bool): View {
    var (pool, pump) := R.ArmReceives(v.pool, v.pump);
    v.(pool := pool, pump := pump,
       routes := v.routes.(newChannels := []),
       channelRecvs := v.channelRecvs + multiset(NewIds(v.routes.newChannels)),
       signals := v.signals.(pendingUpgrades := []),
       wake := if v.closed && (C.AllSettled(v.conns) || lingered) then WakeWaiters(v.wake) else v.wake)
  }

  /** A datagram enters noq under `addr`. */
  function OnDatagram(v: View, addr: SocketAddr, source: Option<EndpointId>, verdict: Verdict): View {
    v.(routes := HandleRoutes(v.routes, v.conns, v.closed, addr, source, verdict),
       conns := HandleConns(v.conns, v.closed, source, verdict))
  }

  function OnPeerDatagram(v: View, peer: EndpointId, via: nat, verdict: Verdict): View {
    var (routes, addr) := AddrForPeer(v.routes, peer, via);
    OnDatagram(v.(routes := routes), addr, Some(peer), verdict)
  }

  function OnSignal(v: View, via: nat, source: EndpointId, payload: G.Payload): View {
    v.(signals := G.HandleSignal(v.signals, via, source, payload, v.closed).0,
       wake := if !v.signals.enabled || v.closed then v.wake else WakeWaiters(v.wake))
  }

  function OnRelayReceived(v: View, key: nat, conn: nat, result: RelayResult, now: Instant, spread: nat): View
    requires spread <= U16_MAX
  {
    var (pool, pump) := R.RelayReceived(v.pool, v.pump, key, conn, !result.RecvFailed?, now, spread);
    OnPayload(v.(pool := pool, pump := pump), key, result)
  }

  /** The rest of the select arm: what the receive carried. It leaves the pool alone. */
  function OnPayload(v: View, key: nat, result: RelayResult): View {
    match result
    case RecvFailed => v
    case GotSignal(source, payload) => OnSignal(v, key, source, payload)
    case GotDatagram(source, verdict) => OnPeerDatagram(v, source, key, verdict)
  }

  function OnChannelReceived(v: View, id: nat, outcome: ChannelResult): View {
    var resolved := v.channelRecvs - multiset{id};
    var v1 := v.(channelRecvs :=
      if id in v.routes.channels && !outcome.ChannelDied? then resolved + multiset{id} else resolved);
    match outcome
    case ChannelText => v1
    case ChannelDied => v1.(routes := RetireChannel(v.routes, id))
    case ChannelDatagram(verdict) =>
      if id !in v.routes.channels then v1
      else OnPeerDatagram(v1, v.routes.channels[id].peer, v.routes.channels[id].fallbackRelay, verdict)
  }

  function OnRedialed(v: View, conn: Option<nat>, now: Instant, spread: nat): View
    requires spread <= U16_MAX
  {
    var (pool, pump) := R.Redialed(v.pool, v.pump, conn, v.closed, now, spread);
    v.(pool := pool, pump := pump, wake := if conn.Some? && !v.closed then WakeWaiters(v.wake) else v.wake)
  }

  function OnKickedPoll(v: View): View {
    if v.wake.pumpKicked then v.(wake := v.wake.(pumpKicked := false))
    else v.(wake := v.wake.(pumpWaker := true, pumpReady := false))
  }

  /** A sweep's dead verdicts, one after another; those of keys no longer pooled are void. */
  function OnDead(p: R.Pool, u: R.PumpRelays, now: Instant, dead: seq<(nat, nat)>): (R.Pool, R.PumpRelays)
    requires SweepFits(dead)
    decreases |dead|
  {
    if dead == [] then (p, u)
    else
      var before, last := dead[..|dead| - 1], dead[|dead| - 1];
      var (q, w) := OnDead(p, u, now, before);
      if last.0 in q.conns then R.ProbedDead(q, w, last.0, q.conns[last.0], now, last.1) else (q, w)
  }

  function OnTick(v: View, now: Instant, dead: seq<(nat, nat)>): View
    requires SweepFits(dead)
  {
    var (pool, pump) := OnDead(v.pool, v.pump, now, dead);
    v.(pool := pool, pump := pump, forceWake := true)
  }

  // ----- they are the machine's steps -----

  predicate ReportsOf(out: NoqOutput, handles: set<C.Handle>) {
    out.ConnectedEvent? || out.LostEvent? || out.DrainedNow? ==> out.handle in handles
  }

  lemma OutputHasEntry(o: C.Owners, r: Routes, out: NoqOutput)
    requires OutputFits(o, r, out)
    ensures ReportsOf(out, o.conns.entries.Keys)
    ensures DrainOwners(o, r, out).conns.entries.Keys == o.conns.entries.Keys
  {
    match out {
      case ConnectedEvent(h, tlsPeer) => C.RestampedAlike(o, C.Connected(h, tlsPeer));
      case LostEvent(h, reason) => C.RestampedAlike(o, C.Lost(h, reason));
      case DrainedNow(h) => C.RestampedAlike(o, C.Drained(h));
      case _ =>
    }
    hide C.Apply;
  }

  /** noq reports only of connections that have an entry. */
  lemma {:induction false} OutputsHaveEntries(o: C.Owners, r: Routes, outs: seq<NoqOutput>)
    requires OutputsFit(o, r, outs)
    ensures forall out :: out in outs ==> ReportsOf(out, o.conns.entries.Keys)
    ensures DrainAllOwners(o, r, outs).conns.entries.Keys == o.conns.entries.Keys
    decreases |outs|
  {
    hide C.Apply, OutputFits, DrainOwners, ReportsOf;
    if outs != [] {
      var before, last := outs[..|outs| - 1], outs[|outs| - 1];
      OutputsHaveEntries(o, r, before);
      OutputHasEntry(DrainAllOwners(o, r, before), r, last);
      assert outs == before + [last];
    }
  }

  /** A drain moves the machine's entries as it moves the code's. */
  lemma {:induction false} DrainedConns(o: C.Owners, r: Routes, outs: seq<NoqOutput>)
    requires OutputsFit(o, r, outs)
    ensures DrainAllOwners(o, r, outs).conns == DrainAllConns(o.conns, outs)
    decreases |outs|
  {
    if outs != [] {
      DrainedConns(o, r, outs[..|outs| - 1]);
    }
  }

  lemma ReceivedRelays(s: System, key: nat, conn: nat, result: RelayResult, now: Instant, spread: nat)
    requires SelectEnabled(s, RelayReady(key, conn, result, now, spread))
    ensures
      var t := R.Apply(s.relays, R.Received(key, conn, !result.RecvFailed?, now, spread));
      && t.retired == s.relays.retired + R.Retired(s.relays.pool, t.pool, key)
      && (t.pool, t.pump) == R.RelayReceived(s.relays.pool, s.relays.pump, key, conn, !result.RecvFailed?, now, spread)
      && t.closed == s.relays.closed
  {
  }

  lemma FiledSignals(g: G.Sessions, via: nat, source: EndpointId, payload: G.Payload, closed: bool)
    ensures G.ReceiveSignal(g, via, source, payload, closed).signals
         == G.HandleSignal(g.signals, via, source, payload, closed).0
  {
  }

  /** A datagram's verdict moves the machine's entries as it moves the code's. */
  lemma IncomingConns(o: C.Owners, closed: bool, source: Option<EndpointId>, v: Verdict)
    requires VerdictFits(o, v)
    ensures v.NewConnection? && !closed && v.failure == None ==>
      C.Apply(o, C.Incoming(v.handle, source)).conns == HandleConns(o.conns, closed, source, v)
    ensures !(v.NewConnection? && !closed && v.failure == None) ==>
      HandleConns(o.conns, closed, source, v) == o.conns
  {
  }

  lemma {:induction false} SweepJoins(s: R.Relays, now: Instant, dead: seq<(nat, nat)>, last: (nat, nat))
    requires SweepFits(dead + [last])
    ensures SweepFits(dead)
    ensures
      var mid := Sweep(s, now, dead);
      var e := R.FoundDead(last.0, now, last.1);
      Sweep(s, now, dead + [last]) == if R.Enabled(mid, e) then R.Apply(mid, e) else mid
    decreases |dead|
  {
    hide R.Apply, R.Enabled;
    assert forall i :: 0 <= i < |dead| ==> dead[i] == (dead + [last])[i];
    assert (dead + [last])[|dead|] == last;
    if dead == [] {
      assert dead + [last] == [last];
    } else {
      var e := R.FoundDead(dead[0].0, now, dead[0].1);
      assert (dead + [last])[1..] == dead[1..] + [last];
      SweepJoins(if R.Enabled(s, e) then R.Apply(s, e) else s, now, dead[1..], last);
    }
  }

  lemma {:induction false} SweepIsOnDead(s: R.Relays, now: Instant, dead: seq<(nat, nat)>)
    requires SweepFits(dead)
    ensures var t := Sweep(s, now, dead); (t.pool, t.pump) == OnDead(s.pool, s.pump, now, dead) && t.closed == s.closed
    decreases |dead|
  {
    hide R.Apply, R.Enabled, R.ProbedDead;
    if dead != [] {
      var before, last := dead[..|dead| - 1], dead[|dead| - 1];
      assert dead == before + [last];
      SweepJoins(s, now, before, last);
      SweepIsOnDead(s, now, before);
      FoundDeadIsProbedDead(Sweep(s, now, before), R.FoundDead(last.0, now, last.1));
    }
  }

  lemma FoundDeadIsProbedDead(s: R.Relays, e: R.RelayEvent)
    requires e.FoundDead? && e.spread <= U16_MAX
    ensures R.Enabled(s, e) <==> e.key in s.pool.conns
    ensures R.Enabled(s, e) ==>
      var t := R.Apply(s, e);
      && (t.pool, t.pump) == R.ProbedDead(s.pool, s.pump, e.key, s.pool.conns[e.key], e.now, e.spread)
      && t.closed == s.closed
  {
    hide R.ProbedDead;
  }

  lemma TurnIsTheMachines(s: System, outputs: seq<NoqOutput>)
    requires FlushEnabled(s, Turn(outputs))
    ensures ViewOf(FlushApply(s, Turn(outputs))) == OnTurn(ViewOf(s), outputs)
  {
    hide DrainAllRoutes, DrainAllConns, DrainAllOwners, OutputsFit, WakeWaiters, ArmStep;
    DrainedConns(s.owners, s.routes, outputs);
  }

  /** Also: what it hands to the wire is what the machine logs as sent, and the
      flush moves on exactly when the queue is empty. */
  lemma RelayTurnIsTheMachines(s: System)
    requires FlushEnabled(s, RelayTurn)
    ensures
      var t := FlushApply(s, RelayTurn);
      var (v, send) := OnRelayTurn(ViewOf(s));
      && ViewOf(t) == v
      && t.sent == s.sent + (if send.Some? then [send.value] else [])
      && (t.pc == FlushUdp <==> s.routes.relayOutbound == [])
  {
    hide ArmStep, TurnStep, UdpTurnStep, ChannelTurnStep;
  }

  lemma UdpTurnIsTheMachines(s: System)
    requires FlushEnabled(s, UdpTurn)
    ensures
      var t := FlushApply(s, UdpTurn);
      var (v, send) := OnUdpTurn(ViewOf(s), s.udpBound);
      && ViewOf(t) == v
      && t.sent == s.sent + (if send.Some? then [send.value] else [])
      && (t.pc == FlushChannel <==> s.routes.udpOutbound == [])
  {
    hide ArmStep, TurnStep, RelayTurnStep, ChannelTurnStep;
  }

  lemma ChannelTurnIsTheMachines(s: System)
    requires FlushEnabled(s, ChannelTurn)
    ensures
      var t := FlushApply(s, ChannelTurn);
      var (v, send) := OnChannelTurn(ViewOf(s));
      && ViewOf(t) == v
      && t.sent == s.sent + (if send.Some? then [send.value] else [])
      && (t.pc == Arming <==> s.routes.channelOutbound == [])
  {
    hide ArmStep, TurnStep, UdpTurnStep, RelayTurnStep;
  }

  lemma RelaySentIsTheMachines(s: System, ok: bool, now: Instant, spread: nat)
    requires FlushEnabled(s, RelaySent(ok, now, spread))
    ensures
      var t := FlushApply(s, RelaySent(ok, now, spread));
      && ViewOf(t) == OnRelaySent(ViewOf(s), s.pc.key, s.pc.conn, ok, now, spread)
      && t.relays.retired == s.relays.retired + R.Retired(s.relays.pool, t.relays.pool, s.pc.key)
  {
    hide R.RelaySendFailed, ArmStep, TurnStep, UdpTurnStep, RelayTurnStep, ChannelTurnStep;
    assert s.relays.retired + [] == s.relays.retired;
  }

  lemma ArmIsTheMachines(s: System, lingered: bool)
    requires FlushEnabled(s, ArmTurn(lingered))
    ensures
      var t := FlushApply(s, ArmTurn(lingered));
      && ViewOf(t) == OnArm(ViewOf(s), lingered)
      && (t.pc.Ended? <==> s.relays.closed && (C.AllSettled(s.owners.conns) || lingered))
      && t.sessions.spawned == s.sessions.spawned + multiset(s.sessions.signals.pendingUpgrades)
  {
    hide ArmStep, OnArm, TurnStep, UdpTurnStep, RelayTurnStep, ChannelTurnStep;
    ArmStepIsOnArm(s, lingered);
  }

  lemma ArmStepIsOnArm(s: System, lingered: bool)
    ensures
      var t := ArmStep(s, lingered);
      && ViewOf(t) == OnArm(ViewOf(s), lingered)
      && (t.pc.Ended? <==> s.relays.closed && (C.AllSettled(s.owners.conns) || lingered))
      && t.sessions.spawned == s.sessions.spawned + multiset(s.sessions.signals.pendingUpgrades)
  {
    hide WakeWaiters, C.AllSettled, NewIds, R.Apply, R.ArmReceives;
    ArmedIsArmReceives(s.relays);
  }

  lemma ArmedIsArmReceives(s: R.Relays)
    ensures
      var t := R.Apply(s, R.Armed);
      (t.pool, t.pump) == R.ArmReceives(s.pool, s.pump) && t.closed == s.closed
  {
  }

  lemma RelayReceivedIsTheMachines(s: System, key: nat, conn: nat, result: RelayResult, now: Instant, spread: nat)
    requires SelectEnabled(s, RelayReady(key, conn, result, now, spread))
    ensures
      var t := SelectApply(s, RelayReady(key, conn, result, now, spread));
      && ViewOf(t) == OnRelayReceived(ViewOf(s), key, conn, result, now, spread)
      && t.relays.retired == s.relays.retired + R.Retired(s.relays.pool, t.relays.pool, key)
  {
    hide R.Apply, C.Apply, R.RelayReceived, R.Retired, G.ReceiveSignal, WakeWaiters, AddrForPeer, HandleRoutes, HandleConns;
    ReceivedRelays(s, key, conn, result, now, spread);
    if result.GotSignal? {
      FiledSignals(s.sessions, key, result.source, result.payload, s.relays.closed);
    }
    if result.GotDatagram? {
      IncomingConns(s.owners, s.relays.closed, Some(result.source), result.verdict);
    }
  }

  /** What a receive carried is handled alike whatever became of its connection,
      and a receive is settled alike whatever it carried. */
  lemma ReceiveSplits(v: View, w: View, key: nat, conn: nat, result: RelayResult, now: Instant, spread: nat)
    requires spread <= U16_MAX && w == v.(pool := w.pool, pump := w.pump)
    requires (w.pool, w.pump) == R.RelayReceived(v.pool, v.pump, key, conn, !result.RecvFailed?, now, spread)
    ensures
      var u := OnPayload(w, key, result);
      && OnRelayReceived(v, key, conn, result, now, spread) == u
      && u == w.(routes := u.routes, signals := u.signals, conns := u.conns, wake := u.wake)
    ensures result.RecvFailed? ==> OnPayload(w, key, result) == w
  {
    hide R.RelayReceived, AddrForPeer, HandleRoutes, HandleConns, G.HandleSignal, WakeWaiters;
  }

  lemma ChannelReceiveMoves(v: View, id: nat, outcome: ChannelResult)
    ensures
      var u := OnChannelReceived(v, id, outcome);
      u == v.(routes := u.routes, conns := u.conns, channelRecvs := u.channelRecvs)
  {
    hide AddrForPeer, HandleRoutes, HandleConns, RetireChannel;
  }

  lemma UdpReceivedIsTheMachines(s: System, remote: SocketAddr, verdict: Verdict)
    requires SelectEnabled(s, UdpReady(remote, verdict))
    ensures ViewOf(SelectApply(s, UdpReady(remote, verdict))) == OnDatagram(ViewOf(s), remote, None, verdict)
  {
    hide C.Apply, HandleRoutes, HandleConns, RelayReadyStep, ChannelReadyStep;
    IncomingConns(s.owners, s.relays.closed, None, verdict);
  }

  lemma ChannelReceivedIsTheMachines(s: System, id: nat, outcome: ChannelResult)
    requires SelectEnabled(s, ChannelReady(id, outcome))
    ensures ViewOf(SelectApply(s, ChannelReady(id, outcome))) == OnChannelReceived(ViewOf(s), id, outcome)
  {
    hide C.Apply, RetireChannel, AddrForPeer, HandleRoutes, HandleConns, RelayReadyStep;
    if outcome.ChannelDatagram? && id in s.routes.channels {
      IncomingConns(s.owners, s.relays.closed, Some(s.routes.channels[id].peer), outcome.verdict);
    }
  }

  lemma RedialedIsTheMachines(s: System, ok: bool, now: Instant, spread: nat)
    requires SelectEnabled(s, RedialReady(ok, now, spread))
    ensures ViewOf(SelectApply(s, RedialReady(ok, now, spread)))
         == OnRedialed(ViewOf(s), if ok then Some(s.relays.nextConn) else None, now, spread)
  {
    hide R.Redialed, WakeWaiters, RelayReadyStep, ChannelReadyStep;
  }

  lemma KickedPollIsTheMachines(s: System)
    requires s.pc.Selecting?
    ensures
      var e: SelectEvent := if s.wake.pumpKicked then KickReady else Park;
      SelectEnabled(s, e) && ViewOf(SelectApply(s, e)) == OnKickedPoll(ViewOf(s))
  {
    hide RelayReadyStep, ChannelReadyStep;
  }

  lemma TickIsTheMachines(s: System, now: Instant, dead: seq<(nat, nat)>)
    requires SelectEnabled(s, TickReady(now, dead))
    ensures ViewOf(SelectApply(s, TickReady(now, dead))) == OnTick(ViewOf(s), now, dead)
  {
    hide Sweep, OnDead, RelayReadyStep, ChannelReadyStep;
    SweepIsOnDead(s.relays, now, dead);
  }

  /** The connections a sweep takes out of the pool: those it found dead, in order. */
  lemma {:induction false} SweepRetires(s: R.Relays, now: Instant, dead: seq<(nat, nat)>, conns: seq<nat>)
    requires SweepFits(dead) && |conns| == |dead|
    requires forall i :: 0 <= i < |dead| ==> dead[i].0 in s.pool.conns && s.pool.conns[dead[i].0] == conns[i]
    requires forall i, j :: 0 <= i < j < |dead| ==> dead[i].0 != dead[j].0
    ensures Sweep(s, now, dead).retired == s.retired + conns
    ensures Sweep(s, now, dead).pool.conns == s.pool.conns - set x | x in dead :: x.0
    decreases |dead|
  {
    hide R.Apply, R.Enabled;
    if dead != [] {
      var before, last := dead[..|dead| - 1], dead[|dead| - 1];
      SweepRetires(s, now, before, conns[..|dead| - 1]);
      var mid := Sweep(s, now, before);
      assert dead == before + [last];
      SweepJoins(s, now, before, last);
      assert last.0 in mid.pool.conns;
      DeadRetires(mid, R.FoundDead(last.0, now, last.1));
      assert conns[..|dead| - 1] + [conns[|dead| - 1]] == conns;
      assert s.retired + conns[..|dead| - 1] + [conns[|dead| - 1]] == s.retired + conns;
    }
  }

  lemma DeadRetires(s: R.Relays, e: R.RelayEvent)
    requires e.FoundDead? && e.spread <= U16_MAX && e.key in s.pool.conns
    ensures R.Enabled(s, e)
    ensures R.Apply(s, e).retired == s.retired + [s.pool.conns[e.key]]
    ensures R.Apply(s, e).pool.conns == s.pool.conns - {e.key}
  {
    hide NextRedialDelay, R.Normalize;
  }

  lemma NoNewIds()
    ensures NewIds([]) == []
  {
  }

  lemma RetiresPooledHome(p: R.Pool, u: R.PumpRelays, conn: nat, now: Instant, spread: nat)
    requires spread <= U16_MAX && R.IsPoolCurrent(p, HOME_RELAY, conn)
    ensures R.Retired(p, R.RetireHome(p, u, conn, now, spread).0, HOME_RELAY) == [conn]
    ensures R.RetireHome(p, u, conn, now, spread).0.conns == p.conns - {HOME_RELAY}
  {
  }

  // ----- the pump itself -----

  class Pump {
    const shared: State
    var recvs: multiset<(nat, nat)>
    var redial: Option<Duration>
    var redialAttempt: nat
    var homeSince: Option<Instant>
    var forceWake: bool
    var channelRecvs: multiset<nat>

    function RelaysNow(): R.PumpRelays
      reads `recvs, `redial, `redialAttempt, `homeSince
    {
      R.PumpRelays(recvs, redial, Backoff(redialAttempt, homeSince))
    }

    ghost function Now(): View
      reads this, shared
    {
      View(shared.RoutesNow(), shared.PoolNow(), RelaysNow(), shared.SignalsNow(), shared.ConnsNow(), shared.WakeNow(),
           shared.closed, forceWake, channelRecvs)
    }

    /** `bind` connected and registered the home relay just before. */
    constructor (shared: State, now: Instant)
      ensures this.shared == shared && RelaysNow() == R.PumpRelays(multiset{}, None, Reconnected(now))
      ensures !forceWake && channelRecvs == multiset{}
    {
      this.shared := shared;
      recvs, redial, redialAttempt, homeSince, forceWake, channelRecvs := multiset{}, None, 0, Some(now), false, multiset{};
    }

    // ----- the home relay -----

    method NextRedialDelay(now: Instant, spread: nat) returns (delay: Duration)
      requires spread <= U16_MAX
      modifies `redialAttempt, `homeSince
      ensures (Backoff(redialAttempt, homeSince), delay)
           == Redial.NextRedialDelay(old(Backoff(redialAttempt, homeSince)), now, spread)
    {
      var since := homeSince;
      homeSince := None;
      if since.Some? && Since(now, since.value) >= REDIAL_ESTABLISHED {
        redialAttempt := 0;
        return 0;
      }
      delay := RedialDelay(redialAttempt, spread);
      redialAttempt := Min(redialAttempt + 1, U32_MAX);
    }

    /** Whether this call is the one that retired the connection; `closes` are
        the connections closed. */
    method TakeHome(conn: nat) returns (retired: bool, closes: seq<nat>)
      modifies shared`relayPool
      ensures retired == R.IsPoolCurrent(old(shared.PoolNow()), HOME_RELAY, conn)
      ensures closes == if retired then [conn] else []
      ensures shared.relayPool == if retired then old(shared.relayPool) - {HOME_RELAY} else old(shared.relayPool)
    {
      if HOME_RELAY !in shared.relayPool || shared.relayPool[HOME_RELAY] != conn {
        return false, [];
      }
      shared.relayPool := shared.relayPool - {HOME_RELAY};
      return true, [conn];
    }

    /** A failed home connection: retired if still pooled, and then the redial is armed. */
    method RetireHome(conn: nat, now: Instant, spread: nat) returns (closes: seq<nat>)
      requires spread <= U16_MAX
      modifies shared`relayPool, `redial, `redialAttempt, `homeSince
      ensures closes == R.Retired(old(shared.PoolNow()), shared.PoolNow(), HOME_RELAY)
      ensures (shared.PoolNow(), RelaysNow()) == R.RetireHome(old(shared.PoolNow()), old(RelaysNow()), conn, now, spread)
    {
      hide Redial.NextRedialDelay;
      var retired;
      retired, closes := TakeHome(conn);
      if retired {
        var delay := NextRedialDelay(now, spread);
        redial := Some(delay);
      }
    }

    // ----- from the top of the turn to the select -----

    method Turn(outputs: seq<NoqOutput>)
      requires RoutesAreOwned(shared.RoutesNow())
      requires forall o :: o in outputs ==> ReportsOf(o, shared.ConnsNow().entries.Keys)
      modifies shared`conns, shared`acceptQueue, shared`relayOutbound, shared`channelOutbound, shared`udpOutbound,
               shared`waiters, shared`ready, `forceWake
      ensures
        var v := OnTurn(old(Now()), outputs);
        shared.RoutesNow() == v.routes && shared.ConnsNow() == v.conns && shared.WakeNow() == v.wake && forceWake == v.forceWake
    {
      hide DrainAllRoutes, DrainAllConns, Wakeups.WakeWaiters;
      var progressed := shared.Drain(outputs);
      if progressed || forceWake {
        shared.WakeWaiters();
      }
      forceWake := false;
    }

    /** One iteration of the relay flush, up to its send: the datagram of a
        retired relay is dropped. */
    method NextRelaySend() returns (done: bool, send: Option<WireSend>)
      modifies shared`relayOutbound
      ensures var (v, w) := OnRelayTurn(old(Now())); shared.RoutesNow() == v.routes && send == w
      ensures done == (old(shared.relayOutbound) == [])
    {
      if shared.relayOutbound == [] {
        return true, None;
      }
      var item := shared.relayOutbound[0];
      shared.relayOutbound := shared.relayOutbound[1..];
      done, send := false, None;
      if item.key in shared.relayPool {
        send := Some(OnRelay(shared.relayPool[item.key], item.peer, item.packet));
      }
    }

    method RelaySendResolved(key: nat, conn: nat, ok: bool, now: Instant, spread: nat) returns (closes: seq<nat>)
      requires spread <= U16_MAX
      modifies shared`relayPool, `redial, `redialAttempt, `homeSince
      ensures closes == R.Retired(old(shared.PoolNow()), shared.PoolNow(), key)
      ensures
        var v := OnRelaySent(old(Now()), key, conn, ok, now, spread);
        shared.PoolNow() == v.pool && RelaysNow() == v.pump
    {
      hide R.RetireHome;
      closes := [];
      if !ok && key == HOME_RELAY {
        closes := RetireHome(conn, now, spread);
      }
    }

    method NextUdpSend(bound: bool) returns (done: bool, send: Option<WireSend>)
      modifies shared`udpOutbound
      ensures var (v, w) := OnUdpTurn(old(Now()), bound); shared.RoutesNow() == v.routes && send == w
      ensures done == (old(shared.udpOutbound) == [])
    {
      if shared.udpOutbound == [] {
        return true, None;
      }
      var item := shared.udpOutbound[0];
      shared.udpOutbound := shared.udpOutbound[1..];
      done, send := false, if bound then Some(OnUdp(item.remote, item.packet)) else None;
    }

    method NextChannelSend() returns (done: bool, send: Option<WireSend>)
      modifies shared`channelOutbound
      ensures var (v, w) := OnChannelTurn(old(Now())); shared.RoutesNow() == v.routes && send == w
      ensures done == (old(shared.channelOutbound) == [])
    {
      if shared.channelOutbound == [] {
        return true, None;
      }
      var item := shared.channelOutbound[0];
      shared.channelOutbound := shared.channelOutbound[1..];
      done, send := false, None;
      if item.id in shared.channels {
        send := Some(OnChannel(shared.channels[item.id].wire, item.packet));
      }
    }

    method ArmReceives()
      modifies shared`newRelays, `recvs
      ensures (shared.PoolNow(), RelaysNow()) == R.ArmReceives(old(shared.PoolNow()), old(RelaysNow()))
    {
      var newRelays := shared.newRelays;
      shared.newRelays := [];
      for i := 0 to |newRelays|
        invariant recvs == old(recvs) + multiset(newRelays[..i])
        modifies `recvs
      {
        assert newRelays[..i + 1] == newRelays[..i] + [newRelays[i]];
        recvs := recvs + multiset{newRelays[i]};
      }
      assert newRelays[..|newRelays|] == newRelays;
    }

    method ArmChannels()
      modifies shared`newChannels, `channelRecvs
      ensures shared.newChannels == []
      ensures channelRecvs == old(channelRecvs) + multiset(NewIds(old(shared.newChannels)))
    {
      hide NewIds;
      var newChannels := shared.newChannels;
      shared.newChannels := [];
      NoNewIds();
      assert newChannels[..0] == [];
      for i := 0 to |newChannels|
        invariant channelRecvs == old(channelRecvs) + multiset(NewIds(newChannels[..i]))
        modifies `channelRecvs
      {
        assert newChannels[..i + 1] == newChannels[..i] + [newChannels[i]];
        NewIdsSnoc(newChannels[..i], newChannels[i]);
        channelRecvs := channelRecvs + multiset{newChannels[i].0};
      }
      assert newChannels[..|newChannels|] == newChannels;
    }

    /** Arms the receives of what was registered since the last turn; the
        upgrades to spawn are handed back. */
    method Arm() returns (upgrades: seq<(EndpointId, nat)>)
      modifies shared`newRelays, shared`newChannels, shared`pendingUpgrades, `recvs, `channelRecvs
      ensures
        var v := OnArm(old(Now()), false);
        && shared.RoutesNow() == v.routes && shared.PoolNow() == v.pool && RelaysNow() == v.pump
        && shared.SignalsNow() == v.signals && channelRecvs == v.channelRecvs
      ensures upgrades == old(shared.SignalsNow()).pendingUpgrades
    {
      hide NewIds, C.AllSettled, Wakeups.WakeWaiters, State.ConnsNow, State.WakeNow;
      ArmReceives();
      ArmChannels();
      upgrades := shared.pendingUpgrades;
      shared.pendingUpgrades := [];
    }

    /** The way out of the loop, once closed: every connection has drained or
        failed, or the linger is over. */
    method LeaveIfDone(lingered: bool) returns (ended: bool)
      modifies shared`waiters, shared`ready
      ensures shared.WakeNow() == OnArm(old(Now()), lingered).wake
      ensures ended == (shared.closed && (C.AllSettled(shared.ConnsNow()) || lingered))
    {
      hide Wakeups.WakeWaiters, NewIds, C.AllSettled;
      ended := false;
      if shared.closed {
        ended := C.AllSettled(shared.ConnsNow()) || lingered;
      }
      if ended {
        shared.WakeWaiters();
      }
    }

    // ----- the select's arms -----

    /** Only the pool's current connection is re-armed, or retired for a failure;
        the outcome of one the pool has moved on from is stale. */
    method SettleReceive(key: nat, conn: nat, ok: bool, now: Instant, spread: nat) returns (closes: seq<nat>)
      requires spread <= U16_MAX && (key, conn) in RelaysNow().recvs
      modifies shared`relayPool, shared`relayKeys, `recvs, `redial, `redialAttempt, `homeSince
      ensures closes == R.Retired(old(shared.PoolNow()), shared.PoolNow(), key)
      ensures (shared.PoolNow(), RelaysNow())
           == R.RelayReceived(old(shared.PoolNow()), old(RelaysNow()), key, conn, ok, now, spread)
    {
      hide R.RetireHome;
      var current := key in shared.relayPool && shared.relayPool[key] == conn;
      recvs := recvs - multiset{(key, conn)};
      closes := [];
      if ok {
        if current {
          recvs := recvs + multiset{(key, conn)};
        }
      } else if current {
        closes := ReceiveFailed(key, conn, now, spread);
      }
    }

    /** What a resolved receive carried is handled whether or not its connection
        is still the pool's. */
    method HandleReceived(key: nat, result: RelayResult) returns (spawnAnswerer: bool)
      requires !result.RecvFailed?
      modifies shared`peerToAddr, shared`addrToPeer, shared`nextHost, shared`routes, shared`conns, shared`nextConnEpoch,
               shared`relayOutbound, shared`channelOutbound, shared`udpOutbound,
               shared`signaling, shared`signalInboxes, shared`waiters, shared`ready
      ensures
        var v := OnPayload(old(Now()), key, result);
        && shared.RoutesNow() == v.routes && shared.SignalsNow() == v.signals
        && shared.ConnsNow() == v.conns && shared.WakeNow() == v.wake
      ensures spawnAnswerer <==>
        result.GotSignal? && shared.webrtcEnabled && !shared.closed && result.source !in old(shared.signaling)
    {
      hide Routing.AddrForPeer, HandleRoutes, HandleConns, Wakeups.WakeWaiters;
      hide State.RoutesNow, State.PoolNow, State.ConnsNow, State.WakeNow, RelaysNow;
      spawnAnswerer := false;
      match result
      case GotSignal(source, payload) => spawnAnswerer := shared.HandleSignal(key, source, payload);
      case GotDatagram(source, verdict) => shared.HandleRelayDatagram(key, source, verdict);
    }

    /** The pooled connection's receive failed: the home relay is redialed, a foreign one retired. */
    method ReceiveFailed(key: nat, conn: nat, now: Instant, spread: nat) returns (closes: seq<nat>)
      requires spread <= U16_MAX && R.IsPoolCurrent(shared.PoolNow(), key, conn)
      modifies shared`relayPool, shared`relayKeys, `redial, `redialAttempt, `homeSince
      ensures closes == [conn] == R.Retired(old(shared.PoolNow()), shared.PoolNow(), key)
      ensures shared.relayPool == old(shared.relayPool) - {key}
      ensures (shared.PoolNow(), RelaysNow()) == R.ProbedDead(old(shared.PoolNow()), old(RelaysNow()), key, conn, now, spread)
    {
      hide R.RetireHome;
      if key == HOME_RELAY {
        RetiresPooledHome(shared.PoolNow(), RelaysNow(), conn, now, spread);
        closes := RetireHome(conn, now, spread);
      } else {
        var retired := shared.RetireRelay(key);
        closes := if retired.Some? then [retired.value] else [];
      }
    }

    method UdpReceived(remote: SocketAddr, verdict: Verdict)
      modifies shared`conns, shared`nextConnEpoch,
               shared`relayOutbound, shared`channelOutbound, shared`udpOutbound
      ensures
        var v := OnDatagram(old(Now()), remote, None, verdict);
        shared.RoutesNow() == v.routes && shared.ConnsNow() == v.conns
    {
      hide HandleRoutes, HandleConns;
      shared.HandleDatagram(remote, None, verdict);
    }

    /** A channel's receive resolved: re-armed while the channel lives, before
        what it carried is handled; a dead channel is retired. */
    method ChannelReceived(id: nat, outcome: ChannelResult)
      modifies shared`peerToAddr, shared`addrToPeer, shared`nextHost, shared`routes, shared`channels,
               shared`conns, shared`nextConnEpoch, shared`relayOutbound, shared`channelOutbound, shared`udpOutbound,
               `channelRecvs
      ensures
        var v := OnChannelReceived(old(Now()), id, outcome);
        shared.RoutesNow() == v.routes && shared.ConnsNow() == v.conns && channelRecvs == v.channelRecvs
    {
      hide Routing.AddrForPeer, HandleRoutes, HandleConns, Routing.RetireChannel;
      channelRecvs := channelRecvs - multiset{id};
      if !outcome.ChannelDied? && id in shared.channels {
        channelRecvs := channelRecvs + multiset{id};
      }
      match outcome
      case ChannelText =>
      case ChannelDied => shared.RetireChannel(id);
      case ChannelDatagram(verdict) => shared.HandleChannelDatagram(id, verdict);
    }

    /** The redialed connection takes the home key, its receive is armed, and the
        backoff restarts. */
    method Reoccupy(conn: nat, now: Instant)
      modifies shared`relayPool, `recvs, `homeSince, `redialAttempt
      ensures shared.PoolNow() == old(shared.PoolNow()).(conns := old(shared.PoolNow()).conns[HOME_RELAY := conn])
      ensures RelaysNow() == old(RelaysNow()).(recvs := old(RelaysNow()).recvs + multiset{(HOME_RELAY, conn)},
                                               backoff := Reconnected(now))
    {
      shared.relayPool := shared.relayPool[HOME_RELAY := conn];
      recvs := recvs + multiset{(HOME_RELAY, conn)};
      homeSince := Some(now);
      redialAttempt := 0;
    }

    /** `conn` is the redialed connection's identity, if the dial came through;
        a closed endpoint closes it again. */
    method Redialed(conn: Option<nat>, now: Instant, spread: nat) returns (closes: seq<nat>)
      requires spread <= U16_MAX
      modifies shared`relayPool, shared`waiters, shared`ready, `recvs, `redial, `redialAttempt, `homeSince
      ensures
        var v := OnRedialed(old(Now()), conn, now, spread);
        shared.PoolNow() == v.pool && RelaysNow() == v.pump && shared.WakeNow() == v.wake
      ensures closes == if shared.closed && conn.Some? then [conn.value] else []
    {
      hide Redial.NextRedialDelay, Wakeups.WakeWaiters, State.RoutesNow, State.SignalsNow, State.ConnsNow;
      hide State.WakeNow, State.PoolNow;
      redial := None;
      closes := if shared.closed && conn.Some? then [conn.value] else [];
      if conn.Some? && !shared.closed {
        Reoccupy(conn.value, now);
        shared.WakeWaiters();
      } else if conn == None && !shared.closed {
        var delay := NextRedialDelay(now, spread);
        redial := Some(delay);
      }
    }

    /** `kicked` polled in the select: a pending kick is consumed, or the pump parks. */
    method PollKicked() returns (kicked: bool)
      modifies shared`pumpKicked, shared`pumpWaker, shared`pumpReady
      ensures kicked == old(shared.WakeNow()).pumpKicked && shared.WakeNow() == OnKickedPoll(old(Now())).wake
    {
      kicked := shared.pumpKicked;
      if kicked {
        shared.pumpKicked := false;
      } else {
        shared.pumpWaker := true;
        shared.pumpReady := false;
      }
    }

    /** The tick's liveness sweep over the pool as the tick found it. `dead`: the
        pooled keys whose probe gave up, in the sweep's order, each with the
        random draw its redial would take. */
    method Tick(now: Instant, dead: seq<(nat, nat)>) returns (closes: seq<nat>)
      requires SweepFits(dead)
      requires forall i :: 0 <= i < |dead| ==> dead[i].0 in shared.PoolNow().conns
      requires forall i, j :: 0 <= i < j < |dead| ==> dead[i].0 != dead[j].0
      modifies shared`relayPool, shared`relayKeys, `redial, `redialAttempt, `homeSince, `forceWake
      ensures
        var v := OnTick(old(Now()), now, dead);
        shared.PoolNow() == v.pool && RelaysNow() == v.pump && forceWake == v.forceWake
      ensures |closes| == |dead| && forall i :: 0 <= i < |dead| ==> closes[i] == old(shared.PoolNow()).conns[dead[i].0]
    {
      hide R.RetireHome;
      forceWake := true;
      closes := [];
      var pool := shared.relayPool;
      for i := 0 to |dead|
        invariant forall j :: i <= j < |dead| ==>
          dead[j].0 in shared.relayPool && shared.relayPool[dead[j].0] == pool[dead[j].0]
        invariant (shared.PoolNow(), RelaysNow()) == OnDead(old(shared.PoolNow()), old(RelaysNow()), now, dead[..i])
        invariant |closes| == i && forall j :: 0 <= j < i ==> closes[j] == pool[dead[j].0]
        modifies shared`relayPool, shared`relayKeys, `redial, `redialAttempt, `homeSince
      {
        assert dead[..i + 1][..i] == dead[..i];
        var (key, spread) := dead[i];
        var closed := ReceiveFailed(key, pool[key], now, spread);
        closes := closes + closed;
      }
      assert dead[..|dead|] == dead;
    }
  }

  /** `bind` once the home relay is dialed: the shared part of `Bind`. */
  method NewShared(homeUrl: R.Url, webrtc: bool, now: Instant) returns (shared: State)
    ensures fresh(shared) && !shared.closed
    ensures shared.PoolNow() == R.Bound(homeUrl, now).pool && shared.WakeNow() == KickPump(NoWakers())
    ensures shared.RoutesNow() == NewRoutes() && shared.SignalsNow() == G.NoSessions(webrtc).signals
    ensures shared.ConnsNow() == C.NoConns().conns
  {
    hide R.Normalize;
    shared := new State(webrtc);
    var key := shared.RegisterRelay(homeUrl, 0);
  }
}

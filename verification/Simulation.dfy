/** The code goes where the machine goes. An `Endpoint` is the code's objects
    together with the run of the machine they have followed; each method is one
    step of the code, from one await to the next, and is proved to be one step of
    that run. So every invariant and every theorem over runs from `bind` holds of
    the objects' own fields, and no step can meet a failing precondition. */
module Simulation {
  import opened Types
  import opened Routing
  import opened Redial
  import opened Wakeups
  import opened Runtime
  import opened RuntimeSafety
  import opened EndpointState
  import opened PumpTask
  import opened EndpointTasks
  import R = RelayPool
  import G = Signaling
  import C = Connections
  import L = LivenessSweep
  import P = RelayClient
  import Q = StreamCalls

  // ----- the run so far -----

  /** `history` is a run from `origin` that ends in `machine`. */
  ghost predicate Reached(origin: System, history: seq<Event>, machine: System) {
    SystemInv(origin) && IsRun(origin, history) && After(origin, history) == machine && SystemInv(machine)
  }

  lemma Starts(homeUrl: R.Url, now: Instant, webrtc: bool, udpBound: bool)
    ensures Reached(Bind(homeUrl, now, webrtc, udpBound), [], Bind(homeUrl, now, webrtc, udpBound))
  {
    hide SystemInv, Bind;
    BindIsGood(homeUrl, now, webrtc, udpBound);
  }

  lemma Advances(origin: System, history: seq<Event>, s: System, e: Event)
    requires Reached(origin, history, s) && Enabled(s, e)
    ensures Reached(origin, history + [e], Apply(s, e)) && SystemInv(s)
  {
    hide SystemInv, Apply, Enabled;
    RunExtends(origin, history, e);
    StepKeepsInv(s, e);
  }

  lemma TaskAdvances(origin: System, history: seq<Event>, s: System, e: TaskEvent)
    requires Reached(origin, history, s) && TaskEnabled(s, e)
    ensures Reached(origin, history + [Task(e)], TaskApply(s, e)) && SystemInv(s)
    ensures TaskApply(s, e).relays.pump == s.relays.pump
    ensures TaskApply(s, e).forceWake == s.forceWake && TaskApply(s, e).channelRecvs == s.channelRecvs
  {
    hide Reached, SystemInv, FlushApply, FlushEnabled, TaskApply, TaskEnabled, SelectApply, SelectEnabled;
    Advances(origin, history, s, Task(e));
    TasksLeaveThePump(s, e);
  }

  lemma FlushAdvances(origin: System, history: seq<Event>, s: System, e: FlushEvent)
    requires Reached(origin, history, s) && FlushEnabled(s, e)
    ensures Reached(origin, history + [Flush(e)], FlushApply(s, e)) && SystemInv(s)
  {
    hide Reached, SystemInv, FlushApply, FlushEnabled, TaskApply, TaskEnabled, SelectApply, SelectEnabled;
    Advances(origin, history, s, Flush(e));
  }

  lemma SelectAdvances(origin: System, history: seq<Event>, s: System, e: SelectEvent)
    requires Reached(origin, history, s) && SelectEnabled(s, e)
    ensures Reached(origin, history + [Select(e)], SelectApply(s, e)) && SystemInv(s)
  {
    hide Reached, SystemInv, FlushApply, FlushEnabled, TaskApply, TaskEnabled, SelectApply, SelectEnabled;
    Advances(origin, history, s, Select(e));
  }

  /** A turn's drain can always be taken: its addresses have owners, its events entries. */
  lemma TurnIsEnabled(s: System, outputs: seq<NoqOutput>)
    requires SystemInv(s) && s.pc.TurnTop? && OutputsFit(s.owners, s.routes, outputs)
    ensures FlushEnabled(s, Turn(outputs)) && RoutesAreOwned(s.routes)
    ensures forall o :: o in outputs ==> ReportsOf(o, s.owners.conns.entries.Keys)
  {
    hide OutputsFit, ReportsOf, SystemInv;
    InvParts(s);
    OutputsHaveEntries(s.owners, s.routes, outputs);
  }

  lemma ReachedIsSafe(origin: System, history: seq<Event>, s: System)
    requires Reached(origin, history, s)
    ensures SystemInv(s)
  {
    hide SystemInv;
  }

  /** The last thing sent reached its peer, as everything sent did. */
  lemma SentReaches(s: System, t: System, send: Option<WireSend>)
    requires SystemInv(t) && t.sent == s.sent + (if send.Some? then [send.value] else []) && send.Some?
    ensures ReachesItsPeer(t.routes, send.value)
  {
    hide SystemInv;
    InvParts(t);
    assert send.value in t.sent;
  }

  lemma ParkMoves(s: System)
    requires SelectEnabled(s, Park)
    ensures var t := SelectApply(s, Park); t.pc.Parked? && !t.wake.pumpReady
  {
    hide RelayReadyStep, ChannelReadyStep;
  }

  lemma TickIsEnabled(s: System, now: Instant, dead: seq<(nat, nat)>)
    requires s.pc.Selecting? && SweepFits(dead)
    ensures SelectEnabled(s, TickReady(now, dead))
  {
  }

  lemma TickSweeps(s: System, now: Instant, dead: seq<(nat, nat)>)
    requires SelectEnabled(s, TickReady(now, dead))
    ensures SelectApply(s, TickReady(now, dead)).relays == Sweep(s.relays, now, dead)
  {
    hide Sweep, RelayReadyStep, ChannelReadyStep;
  }

  lemma ResumesLeavesTheView(s: System, e: Event)
    requires || (e == Flush(UdpSent) && s.pc.SendingUdp?) || (e == Flush(ChannelSent) && s.pc.SendingChannel?)
             || (e == Select(UdpDied) && s.pc.Selecting?) || (e == Select(PumpResumes) && s.pc.Parked?)
    ensures Enabled(s, e) && ViewOf(Apply(s, e)) == ViewOf(s)
  {
    hide RelayReadyStep, ChannelReadyStep, TurnStep, RelayTurnStep, UdpTurnStep, ChannelTurnStep, ArmStep, TaskApply;
  }

  lemma OwnerTask(s: System, c: C.ConnEvent)
    requires TaskEnabled(s, Owner(c))
    ensures C.Enabled(s.owners, c) && TaskApply(s, Owner(c)) == OwnerStep(s, c)
  {
    hide OwnerStep, C.Enabled, C.Apply;
  }

  lemma StreamTask(s: System, ref: C.Ref, op: Q.StreamOp)
    requires TaskEnabled(s, StreamCall(ref, op))
    ensures Q.Fits(op) && TaskApply(s, StreamCall(ref, op)) == StreamStep(s, op)
  {
    hide StreamStep, Q.Fits;
  }

  lemma WaiterIsTheMachines(s: System, waiter: TaskId, done: bool)
    ensures TaskEnabled(s, WaiterPolled(waiter, done))
    ensures ViewOf(TaskApply(s, WaiterPolled(waiter, done)))
         == ViewOf(s).(wake := if done then ForgetWaiter(s.wake, waiter) else ParkWaiter(s.wake, waiter))
  {
    hide StreamStep, OwnerStep, DialerStep, ConnectStep, CloseStep, PublishStep, ChannelStep;
  }

  class Endpoint {
    const pump: Pump
    const tasks: EndpointRes
    ghost const origin: System
    ghost var history: seq<Event>
    ghost var machine: System

    /** The objects' fields are those of the state the run has reached. */
    ghost predicate Valid()
      reads this, pump, pump.shared
    {
      && Reached(origin, history, machine)
      && pump.Now() == ViewOf(machine) && tasks.shared == pump.shared
    }

    constructor (homeUrl: R.Url, webrtc: bool, ghost udpBound: bool, now: Instant)
      ensures Valid() && history == [] && origin == Bind(homeUrl, now, webrtc, udpBound)
    {
      hide Reached, NewRoutes, KickPump, R.Normalize;
      Starts(homeUrl, now, webrtc, udpBound);
      var shared := NewShared(homeUrl, webrtc, now);
      pump := new Pump(shared, now);
      tasks := new EndpointRes(shared);
      origin := Bind(homeUrl, now, webrtc, udpBound);
      machine := Bind(homeUrl, now, webrtc, udpBound);
      history := [];
    }

    // ----- the pump, from the top of its turn to its select -----

    method Turn(outputs: seq<NoqOutput>)
      requires Valid() && machine.pc.TurnTop? && OutputsFit(machine.owners, machine.routes, outputs)
      modifies this, pump, pump.shared
      ensures Valid() && history == old(history) + [Flush(Runtime.Turn(outputs))]
    {
      hide State.RoutesNow, State.PoolNow, State.SignalsNow, State.ConnsNow, State.WakeNow, Pump.RelaysNow;
      hide Reached, SystemInv, FlushApply, FlushEnabled, TaskApply, TaskEnabled, SelectApply, SelectEnabled, OutputsFit, DrainAllRoutes, DrainAllConns, ReportsOf, RoutesAreOwned, WakeWaiters;
      ghost var s := machine;
      ReachedIsSafe(origin, history, s);
      TurnIsEnabled(s, outputs);
      TurnIsTheMachines(s, outputs);
      FlushAdvances(origin, history, s, Runtime.Turn(outputs));
      pump.Turn(outputs);
      machine := FlushApply(s, Runtime.Turn(outputs));
      history := history + [Flush(Runtime.Turn(outputs))];
    }

    /** What it hands to a relay reaches the peer it is for. */
    method NextRelaySend() returns (done: bool, send: Option<WireSend>)
      requires Valid() && FlushEnabled(machine, RelayTurn)
      modifies this, pump, pump.shared
      ensures Valid() && history == old(history) + [Flush(RelayTurn)]
      ensures send.Some? ==> ReachesItsPeer(pump.shared.RoutesNow(), send.value)
      ensures machine.sent == old(machine.sent) + if send.Some? then [send.value] else []
    {
      hide State.RoutesNow, State.PoolNow, State.SignalsNow, State.ConnsNow, State.WakeNow, Pump.RelaysNow;
      hide Reached, SystemInv, FlushApply, FlushEnabled, TaskApply, TaskEnabled, SelectApply, SelectEnabled, ReachesItsPeer, PopRelay;
      ghost var s := machine;
      RelayTurnIsTheMachines(s);
      FlushAdvances(origin, history, s, RelayTurn);
      done, send := pump.NextRelaySend();
      machine := FlushApply(s, RelayTurn);
      history := history + [Flush(RelayTurn)];
      if send.Some? {
        ReachedIsSafe(origin, history, machine);
        SentReaches(s, machine, send);
      }
    }

    /** `closes`: the connections closed are those retired. */
    method RelaySendResolved(key: nat, conn: nat, ok: bool, now: Instant, spread: nat) returns (closes: seq<nat>)
      requires Valid() && machine.pc == SendingRelay(key, conn) && spread <= U16_MAX
      requires FlushEnabled(machine, RelaySent(ok, now, spread))
      modifies this, pump, pump.shared
      ensures Valid() && history == old(history) + [Flush(RelaySent(ok, now, spread))]
      ensures machine.relays.retired == old(machine.relays.retired) + closes
    {
      hide State.RoutesNow, State.PoolNow, State.SignalsNow, State.ConnsNow, State.WakeNow, Pump.RelaysNow;
      hide Reached, SystemInv, FlushApply, FlushEnabled, TaskApply, TaskEnabled, SelectApply, SelectEnabled, R.RelaySendFailed, R.Retired;
      ghost var s := machine;
      RelaySentIsTheMachines(s, ok, now, spread);
      FlushAdvances(origin, history, s, RelaySent(ok, now, spread));
      closes := pump.RelaySendResolved(key, conn, ok, now, spread);
      machine := FlushApply(s, RelaySent(ok, now, spread));
      history := history + [Flush(RelaySent(ok, now, spread))];
    }

    method NextUdpSend(bound: bool) returns (done: bool, send: Option<WireSend>)
      requires Valid() && FlushEnabled(machine, UdpTurn) && bound == machine.udpBound
      modifies this, pump, pump.shared
      ensures Valid() && history == old(history) + [Flush(UdpTurn)]
      ensures send.Some? ==> ReachesItsPeer(pump.shared.RoutesNow(), send.value)
      ensures machine.sent == old(machine.sent) + if send.Some? then [send.value] else []
    {
      hide State.RoutesNow, State.PoolNow, State.SignalsNow, State.ConnsNow, State.WakeNow, Pump.RelaysNow;
      hide Reached, SystemInv, FlushApply, FlushEnabled, TaskApply, TaskEnabled, SelectApply, SelectEnabled, ReachesItsPeer, PopUdp;
      ghost var s := machine;
      UdpTurnIsTheMachines(s);
      FlushAdvances(origin, history, s, UdpTurn);
      done, send := pump.NextUdpSend(bound);
      machine := FlushApply(s, UdpTurn);
      history := history + [Flush(UdpTurn)];
      if send.Some? {
        ReachedIsSafe(origin, history, machine);
        SentReaches(s, machine, send);
      }
    }

    method NextChannelSend() returns (done: bool, send: Option<WireSend>)
      requires Valid() && FlushEnabled(machine, ChannelTurn)
      modifies this, pump, pump.shared
      ensures Valid() && history == old(history) + [Flush(ChannelTurn)]
      ensures send.Some? ==> ReachesItsPeer(pump.shared.RoutesNow(), send.value)
      ensures machine.sent == old(machine.sent) + if send.Some? then [send.value] else []
    {
      hide State.RoutesNow, State.PoolNow, State.SignalsNow, State.ConnsNow, State.WakeNow, Pump.RelaysNow;
      hide Reached, SystemInv, FlushApply, FlushEnabled, TaskApply, TaskEnabled, SelectApply, SelectEnabled, ReachesItsPeer, PopChannel;
      ghost var s := machine;
      ChannelTurnIsTheMachines(s);
      FlushAdvances(origin, history, s, ChannelTurn);
      done, send := pump.NextChannelSend();
      machine := FlushApply(s, ChannelTurn);
      history := history + [Flush(ChannelTurn)];
      if send.Some? {
        ReachedIsSafe(origin, history, machine);
        SentReaches(s, machine, send);
      }
    }

    method ArmTurn(lingered: bool) returns (upgrades: seq<(EndpointId, nat)>, ended: bool)
      requires Valid() && FlushEnabled(machine, Runtime.ArmTurn(lingered))
      modifies this, pump, pump.shared
      ensures Valid() && history == old(history) + [Flush(Runtime.ArmTurn(lingered))]
      ensures ended == machine.pc.Ended? && machine.sessions.spawned == old(machine.sessions.spawned) + multiset(upgrades)
    {
      hide State.RoutesNow, State.PoolNow, State.SignalsNow, State.ConnsNow, State.WakeNow, Pump.RelaysNow;
      hide Reached, SystemInv, FlushApply, FlushEnabled, TaskApply, TaskEnabled, SelectApply, SelectEnabled, NewIds, C.AllSettled, WakeWaiters, R.ArmReceives;
      ghost var s := machine;
      ArmIsTheMachines(s, lingered);
      FlushAdvances(origin, history, s, Runtime.ArmTurn(lingered));
      upgrades := pump.Arm();
      ended := pump.LeaveIfDone(lingered);
      machine := FlushApply(s, Runtime.ArmTurn(lingered));
      history := history + [Flush(Runtime.ArmTurn(lingered))];
    }

    // ----- the arms of its select -----

    method RelayReady(key: nat, conn: nat, result: RelayResult, now: Instant, spread: nat) returns (closes: seq<nat>, spawnAnswerer: bool)
      requires Valid() && SelectEnabled(machine, Runtime.RelayReady(key, conn, result, now, spread))
      requires spread <= U16_MAX && (key, conn) in machine.relays.pump.recvs
      modifies this, pump, pump.shared
      ensures Valid() && history == old(history) + [Select(Runtime.RelayReady(key, conn, result, now, spread))]
      ensures machine.relays.retired == old(machine.relays.retired) + closes
    {
      hide State.RoutesNow, State.PoolNow, State.SignalsNow, State.ConnsNow, State.WakeNow, Pump.RelaysNow;
      hide Reached, SystemInv, FlushApply, FlushEnabled, TaskApply, TaskEnabled, SelectApply, SelectEnabled, R.RelayReceived, R.Retired, OnPayload, OnRelayReceived, WakeWaiters;
      ghost var s := machine;
      RelayReceivedIsTheMachines(s, key, conn, result, now, spread);
      SelectAdvances(origin, history, s, Runtime.RelayReady(key, conn, result, now, spread));
      closes := pump.SettleReceive(key, conn, !result.RecvFailed?, now, spread);
      spawnAnswerer := false;
      ReceiveSplits(ViewOf(s), pump.Now(), key, conn, result, now, spread);
      if !result.RecvFailed? {
        spawnAnswerer := pump.HandleReceived(key, result);
      }
      machine := SelectApply(s, Runtime.RelayReady(key, conn, result, now, spread));
      history := history + [Select(Runtime.RelayReady(key, conn, result, now, spread))];
    }

    method UdpReady(remote: SocketAddr, verdict: Verdict)
      requires Valid() && SelectEnabled(machine, Runtime.UdpReady(remote, verdict))
      modifies this, pump, pump.shared
      ensures Valid() && history == old(history) + [Select(Runtime.UdpReady(remote, verdict))]
    {
      hide State.RoutesNow, State.PoolNow, State.SignalsNow, State.ConnsNow, State.WakeNow, Pump.RelaysNow;
      hide Reached, SystemInv, FlushApply, FlushEnabled, TaskApply, TaskEnabled, SelectApply, SelectEnabled, HandleRoutes, HandleConns;
      ghost var s := machine;
      UdpReceivedIsTheMachines(s, remote, verdict);
      SelectAdvances(origin, history, s, Runtime.UdpReady(remote, verdict));
      pump.UdpReceived(remote, verdict);
      machine := SelectApply(s, Runtime.UdpReady(remote, verdict));
      history := history + [Select(Runtime.UdpReady(remote, verdict))];
    }

    method ChannelReady(id: nat, outcome: ChannelResult)
      requires Valid() && SelectEnabled(machine, Runtime.ChannelReady(id, outcome))
      modifies this, pump, pump.shared
      ensures Valid() && history == old(history) + [Select(Runtime.ChannelReady(id, outcome))]
    {
      hide State.RoutesNow, State.PoolNow, State.SignalsNow, State.ConnsNow, State.WakeNow, Pump.RelaysNow;
      hide Reached, SystemInv, FlushApply, FlushEnabled, TaskApply, TaskEnabled, SelectApply, SelectEnabled, OnChannelReceived;
      ghost var s := machine;
      ChannelReceivedIsTheMachines(s, id, outcome);
      ChannelReceiveMoves(ViewOf(s), id, outcome);
      SelectAdvances(origin, history, s, Runtime.ChannelReady(id, outcome));
      pump.ChannelReceived(id, outcome);
      machine := SelectApply(s, Runtime.ChannelReady(id, outcome));
      history := history + [Select(Runtime.ChannelReady(id, outcome))];
    }

    /** A redialed connection takes the machine's next identity. */
    method RedialReady(conn: Option<nat>, now: Instant, spread: nat) returns (closes: seq<nat>)
      requires Valid() && SelectEnabled(machine, Runtime.RedialReady(conn.Some?, now, spread)) && spread <= U16_MAX
      requires conn.Some? ==> conn.value == machine.relays.nextConn
      modifies this, pump, pump.shared
      ensures Valid() && history == old(history) + [Select(Runtime.RedialReady(conn.Some?, now, spread))]
    {
      hide State.RoutesNow, State.PoolNow, State.SignalsNow, State.ConnsNow, State.WakeNow, Pump.RelaysNow;
      hide Reached, SystemInv, FlushApply, FlushEnabled, TaskApply, TaskEnabled, SelectApply, SelectEnabled, R.Redialed, WakeWaiters;
      ghost var s := machine;
      RedialedIsTheMachines(s, conn.Some?, now, spread);
      SelectAdvances(origin, history, s, Runtime.RedialReady(conn.Some?, now, spread));
      closes := pump.Redialed(conn, now, spread);
      machine := SelectApply(s, Runtime.RedialReady(conn.Some?, now, spread));
      history := history + [Select(Runtime.RedialReady(conn.Some?, now, spread))];
    }

    /** The kick arm resolves, or the pump parks: then nothing is queued or waits to be armed. */
    method PollKicked() returns (kicked: bool)
      requires Valid() && machine.pc.Selecting?
      modifies this, pump, pump.shared
      ensures Valid() && history == old(history) + [Select(if kicked then KickReady else Park)]
      ensures !kicked ==>
        var r := pump.shared.RoutesNow();
        && r.relayOutbound == [] && r.udpOutbound == [] && r.channelOutbound == [] && r.newChannels == []
        && pump.shared.PoolNow().newRelays == [] && pump.shared.SignalsNow().pendingUpgrades == []
    {
      hide State.RoutesNow, State.PoolNow, State.SignalsNow, State.ConnsNow, State.WakeNow, Pump.RelaysNow;
      hide Reached, SystemInv, FlushApply, FlushEnabled, TaskApply, TaskEnabled, SelectApply, SelectEnabled;
      ghost var s := machine;
      ghost var e: SelectEvent := if s.wake.pumpKicked then KickReady else Park;
      KickedPollIsTheMachines(s);
      SelectAdvances(origin, history, s, e);
      kicked := pump.PollKicked();
      machine := SelectApply(s, e);
      history := history + [Select(e)];
      if !kicked {
        ReachedIsSafe(origin, history, machine);
        ParkMoves(s);
        ParkedPumpOwesOnlyResets(machine);
      }
    }

    /** The connections a sweep closes are those it takes out of the pool. */
    method TickReady(now: Instant, dead: seq<(nat, nat)>) returns (closes: seq<nat>)
      requires Valid() && SelectEnabled(machine, Runtime.TickReady(now, dead)) && SweepFits(dead)
      requires forall i :: 0 <= i < |dead| ==> dead[i].0 in pump.shared.PoolNow().conns
      requires forall i, j :: 0 <= i < j < |dead| ==> dead[i].0 != dead[j].0
      modifies this, pump, pump.shared
      ensures Valid() && history == old(history) + [Select(Runtime.TickReady(now, dead))]
      ensures machine.relays.retired == old(machine.relays.retired) + closes
      ensures pump.shared.PoolNow().conns == old(pump.shared.PoolNow().conns) - set x | x in dead :: x.0
    {
      hide State.RoutesNow, State.PoolNow, State.SignalsNow, State.ConnsNow, State.WakeNow, Pump.RelaysNow;
      hide Reached, SystemInv, FlushApply, FlushEnabled, TaskApply, TaskEnabled, SelectApply, SelectEnabled, OnDead, Sweep;
      ghost var s := machine;
      TickIsTheMachines(s, now, dead);
      SelectAdvances(origin, history, s, Runtime.TickReady(now, dead));
      closes := pump.Tick(now, dead);
      SweepRetires(s.relays, now, dead, closes);
      TickSweeps(s, now, dead);
      machine := SelectApply(s, Runtime.TickReady(now, dead));
      history := history + [Select(Runtime.TickReady(now, dead))];
    }

    /** The whole tick: every pooled connection takes a probe step, and exactly
        those found dead leave the pool and are closed. */
    method Tick(pool: seq<L.Pooled>, now: Instant)
      returns (pings: seq<(nat, seq<byte>)>, closes: seq<nat>, ghost verdicts: seq<P.ProbeVerdict>)
      requires Valid() && machine.pc.Selecting?
      requires L.IsPool(pool) && (set p | p in pool :: p.key) == pump.shared.PoolNow().conns.Keys
      requires forall i :: 0 <= i < |pool| ==> pool[i].conn.Valid() && pool[i].conn.policy == L.POLICY
      modifies this, pump, pump.shared, set p | p in pool :: p.conn
      ensures |verdicts| == |pool| && forall i :: 0 <= i < |pool| ==> L.Stepped(pool[i].conn, now, verdicts[i])
      ensures pings == L.Pings(pool, verdicts)
      ensures Valid() && history == old(history) + [Select(Runtime.TickReady(now, L.Deads(pool, verdicts)))]
      ensures machine.relays.retired == old(machine.relays.retired) + closes
      ensures pump.shared.PoolNow().conns
           == old(pump.shared.PoolNow().conns) - set x | x in L.Deads(pool, verdicts) :: x.0
    {
      hide Reached, SystemInv, L.Deads, L.Pings, P.Probed, P.Monotone, P.RelayConn.Valid, P.RelayConn.PingOverdue, P.RelayConn.ProbeState;
      hide State.RoutesNow, State.PoolNow, State.SignalsNow, State.ConnsNow, State.WakeNow, Pump.RelaysNow, ViewOf;
      var dead;
      dead, pings, verdicts := L.ProbePool(pool, now);
      L.DeadsFitASweep(pool, verdicts);
      L.DeadsArePooled(pool, verdicts, pump.shared.PoolNow().conns.Keys);
      TickIsEnabled(machine, now, dead);
      closes := TickReady(now, dead);
    }

    /** Steps that touch none of the code's state: a send's await returns, the UDP
        socket dies, the parked pump is resumed. */
    ghost method Resumes(e: Event)
      requires Valid()
      requires || (e == Flush(UdpSent) && machine.pc.SendingUdp?)
               || (e == Flush(ChannelSent) && machine.pc.SendingChannel?)
               || (e == Select(UdpDied) && machine.pc.Selecting?)
               || (e == Select(PumpResumes) && machine.pc.Parked?)
      modifies this
      ensures Valid() && history == old(history) + [e]
    {
      hide Reached, SystemInv;
      ResumesLeavesTheView(machine, e);
      Advances(origin, history, machine, e);
      machine := Apply(machine, e);
      history := history + [e];
    }

    // ----- resource methods, guards and sessions -----

    method EnsureRelay(ghost dialer: nat, url: R.Url) returns (r: R.EnsureResult)
      requires Valid() && dialer !in machine.relays.dialers
      requires TaskEnabled(machine, Dialer(R.EnsureCalled(dialer, url)))
      modifies this, pump.shared
      ensures Valid() && history == old(history) + [Task(Dialer(R.EnsureCalled(dialer, url)))]
    {
      hide State.RoutesNow, State.PoolNow, State.SignalsNow, State.ConnsNow, State.WakeNow, Pump.RelaysNow;
      hide Reached, SystemInv, FlushApply, FlushEnabled, TaskApply, TaskEnabled, SelectApply, SelectEnabled, KickPump, WakeWaiters, R.EnsureStart;
      ghost var s := machine;
      DialerIsTheMachines(s, R.EnsureCalled(dialer, url));
      TaskAdvances(origin, history, s, Dialer(R.EnsureCalled(dialer, url)));
      r := tasks.EnsureRelay(url);
      machine := TaskApply(s, Dialer(R.EnsureCalled(dialer, url)));
      history := history + [Task(Dialer(R.EnsureCalled(dialer, url)))];
    }

    /** A dialed relay takes the machine's next identity. */
    method RelayDialed(ghost dialer: nat, claim: RelayClaim, url: R.Url, dialed: Option<nat>) returns (key: Option<nat>)
      requires Valid() && TaskEnabled(machine, Dialer(R.DialResolved(dialer, dialed.Some?)))
      requires dialer in machine.relays.dialers && machine.relays.dialers[dialer] == R.Dialing(url)
      requires claim.shared == pump.shared && claim.normalized == R.Normalize(url)
      requires dialed.Some? ==> dialed.value == machine.relays.nextConn
      modifies this, claim, pump.shared
      ensures Valid() && history == old(history) + [Task(Dialer(R.DialResolved(dialer, dialed.Some?)))]
    {
      hide State.RoutesNow, State.PoolNow, State.SignalsNow, State.ConnsNow, State.WakeNow, Pump.RelaysNow;
      hide Reached, SystemInv, FlushApply, FlushEnabled, TaskApply, TaskEnabled, SelectApply, SelectEnabled, KickPump, WakeWaiters, R.OpenResolved, R.Normalize;
      ghost var s := machine;
      DialerIsTheMachines(s, R.DialResolved(dialer, dialed.Some?));
      TaskAdvances(origin, history, s, Dialer(R.DialResolved(dialer, dialed.Some?)));
      key := tasks.RelayDialed(claim, url, dialed);
      machine := TaskApply(s, Dialer(R.DialResolved(dialer, dialed.Some?)));
      history := history + [Task(Dialer(R.DialResolved(dialer, dialed.Some?)))];
    }

    method ClaimDropped(ghost dialer: nat, claim: RelayClaim)
      requires Valid() && TaskEnabled(machine, Dialer(R.DialCancelled(dialer)))
      requires dialer in machine.relays.dialers && claim.armed && claim.shared == pump.shared
      requires claim.normalized == R.Normalize(machine.relays.dialers[dialer].url)
      modifies this, pump.shared
      ensures Valid() && history == old(history) + [Task(Dialer(R.DialCancelled(dialer)))]
    {
      hide State.RoutesNow, State.PoolNow, State.SignalsNow, State.ConnsNow, State.WakeNow, Pump.RelaysNow;
      hide Reached, SystemInv, FlushApply, FlushEnabled, TaskApply, TaskEnabled, SelectApply, SelectEnabled, KickPump, WakeWaiters, R.ReleaseClaim, R.Normalize;
      ghost var s := machine;
      DialerIsTheMachines(s, R.DialCancelled(dialer));
      TaskAdvances(origin, history, s, Dialer(R.DialCancelled(dialer)));
      claim.Drop();
      machine := TaskApply(s, Dialer(R.DialCancelled(dialer)));
      history := history + [Task(Dialer(R.DialCancelled(dialer)))];
    }

    method Connect(peer: EndpointId, direct: Option<SocketAddr>, dialKey: nat, upgradeKey: Option<nat>, handle: Option<C.Handle>) returns (ref: Option<C.Ref>)
      requires Valid() && TaskEnabled(machine, Runtime.Connect(peer, direct, dialKey, upgradeKey, handle))
      modifies this, pump.shared
      ensures Valid() && history == old(history) + [Task(Runtime.Connect(peer, direct, dialKey, upgradeKey, handle))]
    {
      hide State.RoutesNow, State.PoolNow, State.SignalsNow, State.ConnsNow, State.WakeNow, Pump.RelaysNow;
      hide Reached, SystemInv, FlushApply, FlushEnabled, TaskApply, TaskEnabled, SelectApply, SelectEnabled;
      hide KickPump, DialStandin, C.Insert, WantsUpgrade;
      ghost var s := machine;
      ConnectIsTheMachines(s, Runtime.Connect(peer, direct, dialKey, upgradeKey, handle));
      TaskAdvances(origin, history, s, Runtime.Connect(peer, direct, dialKey, upgradeKey, handle));
      ref := tasks.ConnectDial(peer, direct, dialKey, upgradeKey, handle);
      machine := TaskApply(s, Runtime.Connect(peer, direct, dialKey, upgradeKey, handle));
      history := history + [Task(Runtime.Connect(peer, direct, dialKey, upgradeKey, handle))];
    }

    method ConnectPoll(guard: DialGuard) returns (r: C.DialPoll)
      requires Valid() && TaskEnabled(machine, Owner(C.DialPolled(guard.ref)))
      requires guard.ref in machine.owners.guards && guard.armed && guard.shared == pump.shared
      modifies this, guard, pump.shared
      ensures Valid() && history == old(history) + [Task(Owner(C.DialPolled(guard.ref)))]
    {
      hide State.RoutesNow, State.PoolNow, State.SignalsNow, State.ConnsNow, State.WakeNow, Pump.RelaysNow;
      hide Reached, SystemInv, FlushApply, FlushEnabled, TaskApply, TaskEnabled, SelectApply, SelectEnabled, C.PollDial, OwnerStep;
      ghost var s := machine;
      DialPollIsTheMachines(s, guard.ref);
      OwnerTask(s, C.DialPolled(guard.ref));
      TaskAdvances(origin, history, s, Owner(C.DialPolled(guard.ref)));
      r := tasks.ConnectPoll(guard);
      machine := TaskApply(s, Owner(C.DialPolled(guard.ref)));
      history := history + [Task(Owner(C.DialPolled(guard.ref)))];
    }

    method DialCancelled(guard: DialGuard)
      requires Valid() && TaskEnabled(machine, Owner(C.DialCancelled(guard.ref)))
      requires guard.armed && guard.shared == pump.shared
      modifies this, guard, pump.shared
      ensures Valid() && history == old(history) + [Task(Owner(C.DialCancelled(guard.ref)))]
    {
      hide State.RoutesNow, State.PoolNow, State.SignalsNow, State.ConnsNow, State.WakeNow, Pump.RelaysNow;
      hide Reached, SystemInv, FlushApply, FlushEnabled, TaskApply, TaskEnabled, SelectApply, SelectEnabled, C.CloseRef, KickPump, OwnerStep;
      ghost var s := machine;
      OwnerTask(s, C.DialCancelled(guard.ref));
      CloseConnIsTheMachines(s, C.DialCancelled(guard.ref));
      TaskAdvances(origin, history, s, Owner(C.DialCancelled(guard.ref)));
      guard.Drop();
      machine := TaskApply(s, Owner(C.DialCancelled(guard.ref)));
      history := history + [Task(Owner(C.DialCancelled(guard.ref)))];
    }

    method Accept() returns (r: AcceptResult)
      requires Valid() && TaskEnabled(machine, Owner(C.AcceptPolled))
      modifies this, pump.shared
      ensures Valid() && history == old(history) + [Task(Owner(C.AcceptPolled))]
    {
      hide State.RoutesNow, State.PoolNow, State.SignalsNow, State.ConnsNow, State.WakeNow, Pump.RelaysNow;
      hide Reached, SystemInv, FlushApply, FlushEnabled, TaskApply, TaskEnabled, SelectApply, SelectEnabled, C.AcceptPoll, OwnerStep;
      ghost var s := machine;
      AcceptIsTheMachines(s);
      OwnerTask(s, C.AcceptPolled);
      TaskAdvances(origin, history, s, Owner(C.AcceptPolled));
      r := tasks.AcceptPoll();
      machine := TaskApply(s, Owner(C.AcceptPolled));
      history := history + [Task(Owner(C.AcceptPolled))];
    }

    method ConnectionClosed(conn: ConnectionRes)
      requires Valid() && TaskEnabled(machine, Owner(C.ResourceClosed(conn.ref)))
      requires conn.shared == pump.shared
      modifies this, pump.shared
      ensures Valid() && history == old(history) + [Task(Owner(C.ResourceClosed(conn.ref)))]
    {
      hide State.RoutesNow, State.PoolNow, State.SignalsNow, State.ConnsNow, State.WakeNow, Pump.RelaysNow;
      hide Reached, SystemInv, FlushApply, FlushEnabled, TaskApply, TaskEnabled, SelectApply, SelectEnabled, C.CloseRef, KickPump, OwnerStep;
      ghost var s := machine;
      OwnerTask(s, C.ResourceClosed(conn.ref));
      CloseConnIsTheMachines(s, C.ResourceClosed(conn.ref));
      TaskAdvances(origin, history, s, Owner(C.ResourceClosed(conn.ref)));
      conn.Close();
      machine := TaskApply(s, Owner(C.ResourceClosed(conn.ref)));
      history := history + [Task(Owner(C.ResourceClosed(conn.ref)))];
    }

    method ConnectionDropped(conn: ConnectionRes)
      requires Valid() && TaskEnabled(machine, Owner(C.ResourceDropped(conn.ref)))
      requires conn.shared == pump.shared
      modifies this, pump.shared
      ensures Valid() && history == old(history) + [Task(Owner(C.ResourceDropped(conn.ref)))]
    {
      hide State.RoutesNow, State.PoolNow, State.SignalsNow, State.ConnsNow, State.WakeNow, Pump.RelaysNow;
      hide Reached, SystemInv, FlushApply, FlushEnabled, TaskApply, TaskEnabled, SelectApply, SelectEnabled, C.CloseRef, KickPump, OwnerStep;
      ghost var s := machine;
      OwnerTask(s, C.ResourceDropped(conn.ref));
      CloseConnIsTheMachines(s, C.ResourceDropped(conn.ref));
      TaskAdvances(origin, history, s, Owner(C.ResourceDropped(conn.ref)));
      conn.Drop();
      machine := TaskApply(s, Owner(C.ResourceDropped(conn.ref)));
      history := history + [Task(Owner(C.ResourceDropped(conn.ref)))];
    }

    method Close()
      requires Valid() && TaskEnabled(machine, EndpointClose)
      modifies this, pump.shared
      ensures Valid() && history == old(history) + [Task(EndpointClose)]
    {
      hide State.RoutesNow, State.PoolNow, State.SignalsNow, State.ConnsNow, State.WakeNow, Pump.RelaysNow;
      hide Reached, SystemInv, FlushApply, FlushEnabled, TaskApply, TaskEnabled, SelectApply, SelectEnabled, KickPump, WakeWaiters, C.CloseAll;
      ghost var s := machine;
      CloseIsTheMachines(s);
      TaskAdvances(origin, history, s, EndpointClose);
      tasks.Close();
      machine := TaskApply(s, EndpointClose);
      history := history + [Task(EndpointClose)];
    }

    /** The kick is the one the stream's own method returns. */
    method StreamCalled(ref: C.Ref, op: Q.StreamOp, kick: bool)
      requires Valid() && TaskEnabled(machine, StreamCall(ref, op)) && Q.Fits(op) && kick == Q.Kicks(op)
      modifies this, pump.shared
      ensures Valid() && history == old(history) + [Task(StreamCall(ref, op))]
    {
      hide State.RoutesNow, State.PoolNow, State.SignalsNow, State.ConnsNow, State.WakeNow, Pump.RelaysNow;
      hide Reached, SystemInv, FlushApply, FlushEnabled, TaskApply, TaskEnabled, SelectApply, SelectEnabled, KickPump, Q.Fits, Q.Kicks, StreamStep;
      ghost var s := machine;
      StreamIsTheMachines(s, op);
      StreamTask(s, ref, op);
      TaskAdvances(origin, history, s, StreamCall(ref, op));
      if kick {
        pump.shared.KickPump();
      }
      machine := TaskApply(s, StreamCall(ref, op));
      history := history + [Task(StreamCall(ref, op))];
    }

    method UpgradeBegun(peer: EndpointId, via: nat) returns (guard: Option<SessionGuard>)
      requires Valid() && TaskEnabled(machine, UpgradeBegins(peer, via))
      modifies this, pump.shared
      ensures Valid() && history == old(history) + [Task(UpgradeBegins(peer, via))]
    {
      hide State.RoutesNow, State.PoolNow, State.SignalsNow, State.ConnsNow, State.WakeNow, Pump.RelaysNow;
      hide Reached, SystemInv, FlushApply, FlushEnabled, TaskApply, TaskEnabled, SelectApply, SelectEnabled;
      ghost var s := machine;
      UpgradeIsTheMachines(s, peer, via);
      TaskAdvances(origin, history, s, UpgradeBegins(peer, via));
      guard := BeginUpgrade(pump.shared, peer, via);
      machine := TaskApply(s, UpgradeBegins(peer, via));
      history := history + [Task(UpgradeBegins(peer, via))];
    }

    method Published(ghost session: nat, peer: EndpointId, payload: seq<byte>) returns (ok: bool)
      requires Valid() && TaskEnabled(machine, Runtime.Publish(session, payload))
      requires session in machine.sessions.live && machine.sessions.live[session].peer == peer
      modifies this, pump.shared
      ensures Valid() && history == old(history) + [Task(Runtime.Publish(session, payload))]
    {
      hide State.RoutesNow, State.PoolNow, State.SignalsNow, State.ConnsNow, State.WakeNow, Pump.RelaysNow;
      hide Reached, SystemInv, FlushApply, FlushEnabled, TaskApply, TaskEnabled, SelectApply, SelectEnabled, KickPump, PushSignal;
      ghost var s := machine;
      SessionIsTheMachines(s, Runtime.Publish(session, payload));
      TaskAdvances(origin, history, s, Runtime.Publish(session, payload));
      ok := EndpointTasks.Publish(pump.shared, peer, payload);
      machine := TaskApply(s, Runtime.Publish(session, payload));
      history := history + [Task(Runtime.Publish(session, payload))];
    }

    /** A poll that yields a signal. */
    method SignalPolled(ghost session: nat, peer: EndpointId, timedOut: bool) returns (r: SignalPoll)
      requires Valid() && TaskEnabled(machine, ReadsSignal(session)) && !pump.shared.closed
      requires session in machine.sessions.live && machine.sessions.live[session].peer == peer
      modifies this, pump.shared
      ensures Valid() && history == old(history) + [Task(ReadsSignal(session))]
    {
      hide State.RoutesNow, State.PoolNow, State.SignalsNow, State.ConnsNow, State.WakeNow, Pump.RelaysNow;
      hide Reached, SystemInv, FlushApply, FlushEnabled, TaskApply, TaskEnabled, SelectApply, SelectEnabled, G.PopInbox;
      ghost var s := machine;
      SessionIsTheMachines(s, ReadsSignal(session));
      TaskAdvances(origin, history, s, ReadsSignal(session));
      r := PollSignal(pump.shared, peer, timedOut);
      machine := TaskApply(s, ReadsSignal(session));
      history := history + [Task(ReadsSignal(session))];
    }

    method SessionDropped(ghost session: nat, guard: SessionGuard)
      requires Valid() && TaskEnabled(machine, SessionFails(session)) && guard.shared == pump.shared
      requires session in machine.sessions.live && machine.sessions.live[session].peer == guard.peer
      modifies this, pump.shared
      ensures Valid() && history == old(history) + [Task(SessionFails(session))]
    {
      hide State.RoutesNow, State.PoolNow, State.SignalsNow, State.ConnsNow, State.WakeNow, Pump.RelaysNow;
      hide Reached, SystemInv, FlushApply, FlushEnabled, TaskApply, TaskEnabled, SelectApply, SelectEnabled, G.EndSignaling;
      ghost var s := machine;
      SessionIsTheMachines(s, SessionFails(session));
      TaskAdvances(origin, history, s, SessionFails(session));
      guard.Drop();
      machine := TaskApply(s, SessionFails(session));
      history := history + [Task(SessionFails(session))];
    }

    method OffererOpensChannel(ghost session: nat, guard: SessionGuard, wire: ChannelWire) returns (ok: bool, closes: seq<ChannelWire>)
      requires Valid() && TaskEnabled(machine, ChannelOpens(session, wire)) && guard.shared == pump.shared
      requires session in machine.sessions.live && machine.sessions.live[session].peer == guard.peer
      requires machine.sessions.live[session].role.Offerer?
      modifies this, pump.shared
      ensures Valid() && history == old(history) + [Task(ChannelOpens(session, wire))]
    {
      hide State.RoutesNow, State.PoolNow, State.SignalsNow, State.ConnsNow, State.WakeNow, Pump.RelaysNow;
      hide Reached, SystemInv, FlushApply, FlushEnabled, TaskApply, TaskEnabled, SelectApply, SelectEnabled, KickPump, RegisterChannel, G.EndSignaling;
      ghost var s := machine;
      ChannelIsTheMachines(s, session, wire);
      TaskAdvances(origin, history, s, ChannelOpens(session, wire));
      ok, closes := OffererOpened(guard, wire);
      machine := TaskApply(s, ChannelOpens(session, wire));
      history := history + [Task(ChannelOpens(session, wire))];
    }

    method AnswererOpensChannel(ghost session: nat, guard: SessionGuard, wire: ChannelWire) returns (ok: bool, closes: seq<ChannelWire>)
      requires Valid() && TaskEnabled(machine, ChannelOpens(session, wire)) && guard.shared == pump.shared
      requires session in machine.sessions.live && machine.sessions.live[session].peer == guard.peer
      requires machine.sessions.live[session].role.Answerer?
      modifies this, pump.shared
      ensures Valid() && history == old(history) + [Task(ChannelOpens(session, wire))]
    {
      hide State.RoutesNow, State.PoolNow, State.SignalsNow, State.ConnsNow, State.WakeNow, Pump.RelaysNow;
      hide Reached, SystemInv, FlushApply, FlushEnabled, TaskApply, TaskEnabled, SelectApply, SelectEnabled, KickPump, RegisterChannel, G.EndSignaling;
      ghost var s := machine;
      ChannelIsTheMachines(s, session, wire);
      TaskAdvances(origin, history, s, ChannelOpens(session, wire));
      ok, closes := AnswererOpened(guard, wire);
      machine := TaskApply(s, ChannelOpens(session, wire));
      history := history + [Task(ChannelOpens(session, wire))];
    }

    /** One poll of a waiter, its check done or not. */
    method Waits(waiter: TaskId, done: bool)
      requires Valid()
      modifies this, pump.shared
      ensures Valid() && history == old(history) + [Task(WaiterPolled(waiter, done))]
    {
      hide State.RoutesNow, State.PoolNow, State.SignalsNow, State.ConnsNow, State.WakeNow, Pump.RelaysNow;
      hide Reached, SystemInv, FlushApply, FlushEnabled, TaskApply, TaskEnabled, SelectApply, SelectEnabled;
      ghost var s := machine;
      WaiterIsTheMachines(s, waiter, done);
      TaskAdvances(origin, history, s, WaiterPolled(waiter, done));
      if done {
        pump.shared.Forget(waiter);
      } else {
        pump.shared.Park(waiter);
      }
      machine := TaskApply(s, WaiterPolled(waiter, done));
      history := history + [Task(WaiterPolled(waiter, done))];
    }
  }
}

/** When the pump sleeps and what it may owe then; when waiters wake. */
module RuntimeWakes {
  import opened Types
  import opened Routing
  import opened Wakeups
  import opened Runtime
  import opened RuntimeRuns
  import opened RuntimeSafety
  import R = RelayPool
  import G = Signaling
  import C = Connections
  import Redial

  // ----- what a parked pump owes -----

  /** A read that consumed a RESET and freed credit with it. */
  predicate ReadsReset(e: Event) { e.Task? && ConsumesReset(e.task) }

  predicate Drains(e: Event) { e.Flush? && e.flush.Turn? }

  /** Looking back from the run's end, a read that consumed a RESET and freed
      credit comes before any drain. */
  predicate ResetSinceDrain(es: seq<Event>) {
    es != [] && (ReadsReset(es[|es| - 1]) || (!Drains(es[|es| - 1]) && ResetSinceDrain(es[..|es| - 1])))
  }

  predicate NoDrain(es: seq<Event>) {
    forall i :: 0 <= i < |es| ==> !Drains(es[i])
  }

  lemma StepTracksResets(s: System, e: Event)
    requires Enabled(s, e)
    ensures Apply(s, e).resetUnflushed <==> !Drains(e) && (s.resetUnflushed || ReadsReset(e))
  {
    match e {
      case Task(t) =>
        TaskKeepsReset(s, t);
        hide TaskApply;
      case Flush(f) =>
        if !f.Turn? {
          FlushKeepsReset(s, f);
          hide FlushApply;
        } else {
          hide DrainAllRoutes, DrainAllOwners, OutputsFit;
        }
      case Select(c) =>
        SelectKeepsReset(s, c);
        hide SelectApply;
    }
  }

  lemma FlushKeepsReset(s: System, e: FlushEvent)
    requires FlushEnabled(s, e) && !e.Turn?
    ensures FlushApply(s, e).resetUnflushed == s.resetUnflushed
  {
    if e.ArmTurn? {
      hide R.Apply, NewIds, C.AllSettled;
    } else {
      MiddleFlush(s, e);
      hide FlushApply;
    }
  }

  lemma SelectKeepsReset(s: System, e: SelectEvent)
    requires SelectEnabled(s, e)
    ensures SelectApply(s, e).resetUnflushed == s.resetUnflushed
  {
    hide R.Apply, C.Apply, HandleRoutes, Sweep, RelayReadyStep, ChannelReadyStep;
    match e {
      case RelayReady(_, _, _, _, _) => RelayReadyGoesToTop(s, e);
      case ChannelReady(_, _) => ChannelReadyGoesToTop(s, e);
      case _ =>
    }
  }

  /** The history flag is what the run's events say. */
  lemma {:induction false} FlagIsTheRun(s: System, es: seq<Event>)
    requires IsRun(s, es)
    ensures After(s, es).resetUnflushed <==> ResetSinceDrain(es) || (s.resetUnflushed && NoDrain(es))
    decreases |es|
  {
    hide Apply, Enabled, Drains, ReadsReset;
    if es != [] {
      var e, rest := es[0], es[1..];
      StepTracksResets(s, e);
      FlagIsTheRun(Apply(s, e), rest);
      ResetsSplit(e, rest);
      DrainsOrReads(e);
      assert es == [e] + rest;
      assert NoDrain(es) <==> !Drains(e) && NoDrain(rest) by {
        assert forall i :: 0 <= i < |rest| ==> rest[i] == es[i + 1];
      }
    }
  }

  lemma {:induction false} ResetsSplit(e: Event, rest: seq<Event>)
    ensures ResetSinceDrain([e] + rest) <==> ResetSinceDrain(rest) || (ReadsReset(e) && NoDrain(rest))
    decreases |rest|
  {
    hide Drains, ReadsReset;
    if rest == [] {
      assert [e] + rest == [e] && [e][..0] == [];
    } else {
      var init, last := rest[..|rest| - 1], rest[|rest| - 1];
      ResetsSplit(e, init);
      assert ([e] + rest)[..|rest|] == [e] + init;
      assert rest == init + [last];
      NoDrainSplit(init, last);
      DrainsOrReads(last);
    }
  }

  lemma NoDrainSplit(init: seq<Event>, last: Event)
    ensures NoDrain(init + [last]) <==> NoDrain(init) && !Drains(last)
  {
    hide Drains;
    assert (init + [last])[|init|] == last;
    assert forall i :: 0 <= i < |init| ==> (init + [last])[i] == init[i];
  }

  lemma DrainsOrReads(e: Event)
    ensures !(Drains(e) && ReadsReset(e))
  {
  }

  /** Over every run: a parked pump that will not be resumed has nothing queued,
      to arm or to spawn, and noq has something for it to collect if and only if,
      since the last drain, a read consumed a RESET that freed credit. */
  lemma ParkedPumpOwesExactlyResets(homeUrl: R.Url, now: Instant, webrtc: bool, udpBound: bool, es: seq<Event>)
    requires IsRun(Bind(homeUrl, now, webrtc, udpBound), es)
    ensures
      var t := After(Bind(homeUrl, now, webrtc, udpBound), es);
      t.pc.Parked? && !t.wake.pumpReady ==>
        && (t.dirty <==> ResetSinceDrain(es))
        && !t.wake.pumpKicked
        && t.routes.relayOutbound == [] && t.routes.udpOutbound == [] && t.routes.channelOutbound == []
        && t.relays.pool.newRelays == [] && t.routes.newChannels == [] && t.sessions.signals.pendingUpgrades == []
  {
    hide SystemInv;
    EveryRunIsGood(homeUrl, now, webrtc, udpBound, es);
    FlagIsTheRun(Bind(homeUrl, now, webrtc, udpBound), es);
    hide IsRun, After, Bind, ResetSinceDrain;
    var t := After(Bind(homeUrl, now, webrtc, udpBound), es);
    if t.pc.Parked? && !t.wake.pumpReady {
      ParkedPumpOwesOnlyResets(t);
    }
  }

  /** The next tick's turn collects it: whatever tasks come in between, the turn
      after the tick leaves noq with nothing to collect. */
  lemma TickTurnCollects(s: System, now: Instant, dead: seq<(nat, nat)>, between: seq<Event>, outputs: seq<NoqOutput>)
    requires s.pc.Parked? && SweepFits(dead)
    requires TasksOnly(between) && IsRun(SelectApply(SelectApply(s, PumpResumes), TickReady(now, dead)), between)
    requires
      var u := After(SelectApply(SelectApply(s, PumpResumes), TickReady(now, dead)), between);
      FlushEnabled(u, Turn(outputs))
    ensures
      var u := After(SelectApply(SelectApply(s, PumpResumes), TickReady(now, dead)), between);
      var t := FlushApply(u, Turn(outputs));
      !t.dirty && !t.resetUnflushed && t.pc.FlushRelay?
  {
    hide DrainAllRoutes, DrainAllOwners, OutputsFit, After, IsRun;
  }

  /** A task that closes a connection leaves noq its close to send, with a kick. */
  lemma ClosesAreFlushed(s: System, e: TaskEvent, h: C.Handle)
    requires TaskEnabled(s, e) && h in s.owners.conns.entries && !s.owners.conns.entries[h].closing
    ensures
      var t := TaskApply(s, e);
      h in t.owners.conns.entries && t.owners.conns.entries[h].closing ==> t.dirty && t.wake.pumpKicked
  {
    TaskStepsOwners(s, e);
    match e {
      case Owner(c) =>
        OwnerClosesFlush(s, c, h);
        hide OwnerStep, C.Apply, R.Apply, DialerStep, ConnectStep, StreamStep, CloseStep, PublishStep, ChannelStep;
      case EndpointClose =>
        hide C.Apply, R.Apply, OwnerStep, DialerStep, ConnectStep, StreamStep, PublishStep, ChannelStep;
      case Connect(_, _, _, _, _) =>
        hide TaskApply;
      case _ =>
        hide TaskApply, C.Apply;
    }
  }

  lemma OwnerClosesFlush(s: System, c: C.ConnEvent, h: C.Handle)
    requires IsOwnerStep(c) && C.Enabled(s.owners, c) && h in s.owners.conns.entries && !s.owners.conns.entries[h].closing
    ensures
      var t := OwnerStep(s, c);
      h in t.owners.conns.entries && t.owners.conns.entries[h].closing ==> t.dirty && t.wake.pumpKicked
  {
    if c.AcceptPolled? {
      C.AcceptTouchesNoEntry(s.owners);
    }
    hide C.AcceptStep;
  }

  /** What enters noq is drained: a datagram, the timeouts of a tick, put the pump at
      the top of its turn with noq to collect from. */
  lemma InputsAreDrained(s: System, e: SelectEvent)
    requires SelectEnabled(s, e)
    requires || e.UdpReady? || e.TickReady? || (e.RelayReady? && e.result.GotDatagram?)
             || (e.ChannelReady? && e.outcome.ChannelDatagram? && e.id in s.routes.channels)
    ensures SelectApply(s, e).pc.TurnTop? && SelectApply(s, e).dirty
  {
    hide R.Apply, C.Apply, HandleRoutes, AddrForPeer, Sweep, VerdictFits, IsStandin;
  }

  // ----- waiters and what they wait for -----

  /** The checks of the code's `wait_until` calls over the modelled state. */
  datatype Check = ForAccept | ForDial(ref: C.Ref) | ForRelay(url: R.Url) | ForSignal(peer: EndpointId)

  /** A queued connection is still in its slot. */
  ghost predicate Acceptable(c: C.Conns) {
    exists ref :: ref in c.acceptQueue && C.IsCurrent(c, ref)
  }

  /** The check has an answer, its deadline aside. */
  predicate Answered(s: System, check: Check) {
    match check
    case ForAccept => C.AcceptPoll(s.owners.conns).1.Some? || s.relays.closed
    case ForDial(ref) => !C.PollDial(s.owners.conns, ref).DialPending?
    case ForRelay(url) => !R.EnsureWait(s.relays.pool, url, s.relays.closed, false).StillWaiting?
    case ForSignal(peer) => s.relays.closed || G.PopInbox(s.sessions.signals, peer).1.Some?
  }

  lemma {:induction false} AcceptableIsAnswered(c: C.Conns)
    ensures C.AcceptPoll(c).1.Some? <==> Acceptable(c)
    decreases |c.acceptQueue|
  {
    if c.acceptQueue != [] {
      var head, rest := c.acceptQueue[0], c.(acceptQueue := c.acceptQueue[1..]);
      AcceptableIsAnswered(rest);
      assert forall ref :: C.IsCurrent(rest, ref) <==> C.IsCurrent(c, ref);
      assert forall ref :: ref in c.acceptQueue <==> ref == head || ref in rest.acceptQueue;
      if ref :| ref in rest.acceptQueue && C.IsCurrent(rest, ref) {
        assert C.IsCurrent(c, ref);
      }
    }
  }

  /** The steps that wake every parked waiter. */
  predicate WakesAll(s: System, e: Event) {
    match e
    case Task(Dialer(d)) => d.DialResolved? || d.DialCancelled?
    case Task(EndpointClose) => !s.relays.closed
    case Flush(Turn(outputs)) => outputs != [] || s.forceWake
    case Select(RelayReady(_, _, GotSignal(_, _), _, _)) => s.sessions.signals.enabled && !s.relays.closed
    case Select(RedialReady(ok, _, _)) => ok && !s.relays.closed
    case _ => false
  }

  lemma WakeReadies(w: Wake, task: TaskId)
    requires task in w.waiters
    ensures task in WakeWaiters(w).ready && task in KickPump(WakeWaiters(w)).ready && task in WakeWaiters(KickPump(w)).ready
  {
  }

  lemma WakesAllReadies(s: System, e: Event, task: TaskId)
    requires Enabled(s, e) && WakesAll(s, e) && task in s.wake.waiters
    ensures task in Apply(s, e).wake.ready
  {
    WakeReadies(s.wake, task);
    hide WakeWaiters, KickPump, R.Apply, C.Apply, R.Enabled, C.Enabled;
    match e {
      case Task(t) =>
        hide FlushApply, SelectApply, ConnectStep, OwnerStep, StreamStep, PublishStep, ChannelStep;
      case Flush(f) =>
        hide TaskApply, SelectApply, DrainAllRoutes, DrainAllOwners, OutputsFit, RelayTurnStep, UdpTurnStep, ChannelTurnStep, ArmStep;
      case Select(c) =>
        hide TaskApply, FlushApply, G.ReceiveSignal, ChannelReadyStep, RedialReadyStep, AddrForPeer, HandleRoutes;
    }
  }

  /** The pump's next turn comes without waiting, and noq has something for its
      drain, which then wakes everyone. */
  predicate OwesWake(s: System) { s.dirty && (s.wake.pumpKicked || s.pc.TurnTop?) }

  /** What an owner's or a newcomer's step can answer. */
  lemma OwnerStepAnswers(o: C.Owners, x: C.ConnEvent, ref: C.Ref)
    requires C.OwnersInv(o) && C.Enabled(o, x)
    requires !x.Connected? && !x.Lost? && !x.Drained? && !x.AllClosed?
    ensures !Acceptable(o.conns) ==> !Acceptable(C.Apply(o, x).conns)
    ensures C.PollDial(o.conns, ref).DialPending? && !x.Dialed? && !x.Incoming? ==>
      C.PollDial(C.Apply(o, x).conns, ref).DialPending?
  {
    hide C.OneOwner, C.Backlogged;
    match x
    case Dialed(h, peer) => InsertAccepts(o, h, Some(peer), false);
    case Incoming(h, source) =>
      hide C.AcceptBacklog, C.Handshaking;
      InsertAccepts(o, h, source, true);
    case AcceptPolled =>
      hide C.OwnersInv;
      C.AcceptTouchesNoEntry(o);
      AcceptShrinks(o);
      hide C.AcceptStep;
    case DialPolled(r) =>
      CloseAnswersNothing(o.conns, r, ref);
      hide C.CloseRef, C.OwnersInv;
    case DialCancelled(r) =>
      CloseAnswersNothing(o.conns, r, ref);
      hide C.CloseRef, C.OwnersInv;
    case ResourceClosed(r) =>
      CloseAnswersNothing(o.conns, r, ref);
      hide C.CloseRef, C.OwnersInv;
    case ResourceDropped(r) =>
      CloseAnswersNothing(o.conns, r, ref);
      hide C.CloseRef, C.OwnersInv;
  }

  lemma InsertAccepts(o: C.Owners, h: C.Handle, expected: Option<EndpointId>, accepted: bool)
    requires C.EpochsAreFresh(o) && C.AcceptOrder(o)
    ensures Acceptable(C.Insert(o.conns, h, expected, accepted)) ==> Acceptable(o.conns)
  {
    var d := C.Insert(o.conns, h, expected, accepted);
    if ref :| ref in d.acceptQueue && C.IsCurrent(d, ref) {
      assert ref in o.connectedLog;
      assert C.IsCurrent(o.conns, ref);
    }
  }

  lemma {:induction false} AcceptShrinks(o: C.Owners)
    ensures forall ref :: ref in C.AcceptStep(o).conns.acceptQueue ==> ref in o.conns.acceptQueue
    decreases |o.conns.acceptQueue|
  {
    if o.conns.acceptQueue != [] && !C.IsCurrent(o.conns, o.conns.acceptQueue[0]) {
      AcceptShrinks(o.(conns := o.conns.(acceptQueue := o.conns.acceptQueue[1..]),
                       popped := o.popped + [C.Popped(o.conns.acceptQueue[0], false)]));
    }
  }

  lemma CloseAnswersNothing(c: C.Conns, closed: C.Ref, ref: C.Ref)
    ensures var d := C.CloseRef(c, closed);
      && (Acceptable(d) ==> Acceptable(c))
      && C.PollDial(d, ref) == C.PollDial(c, ref)
  {
    var d := C.CloseRef(c, closed);
    assert forall r :: C.IsCurrent(d, r) <==> C.IsCurrent(c, r);
  }

  /** What a pool step that wakes nobody can answer: nothing. */
  lemma RelayStepAnswers(s: R.Relays, x: R.RelayEvent, url: R.Url)
    requires R.RelaysInv(s) && R.Enabled(s, x) && !x.DialResolved? && !x.DialCancelled? && !x.EndpointClosed?
    ensures R.Apply(s, x).closed == s.closed
    ensures R.EnsureWait(s.pool, url, s.closed, false).StillWaiting? ==>
      R.EnsureWait(R.Apply(s, x).pool, url, s.closed, false).StillWaiting?
  {
    hide R.RelaysInv, R.Normalize, Redial.NextRedialDelay;
  }

  lemma {:induction false} SweepAnswers(s: R.Relays, now: Instant, dead: seq<(nat, nat)>, url: R.Url)
    requires R.RelaysInv(s) && SweepFits(dead)
    ensures Sweep(s, now, dead).closed == s.closed
    ensures R.EnsureWait(s.pool, url, s.closed, false).StillWaiting? ==>
      R.EnsureWait(Sweep(s, now, dead).pool, url, s.closed, false).StillWaiting?
    decreases |dead|
  {
    hide R.RelaysInv, R.Apply, R.Enabled, R.EnsureWait;
    if dead != [] {
      var e := R.FoundDead(dead[0].0, now, dead[0].1);
      if R.Enabled(s, e) {
        R.StepKeepsInv(s, e);
        RelayStepAnswers(s, e, url);
      }
      SweepAnswers(if R.Enabled(s, e) then R.Apply(s, e) else s, now, dead[1..], url);
    }
  }

  lemma NewcomersOweWakes(s: System, e: Event)
    requires Enabled(s, e) && OwnerStepOf(s, e).Some? && (OwnerStepOf(s, e).value.Dialed? || OwnerStepOf(s, e).value.Incoming?)
    ensures OwesWake(Apply(s, e))
  {
    match e {
      case Task(t) =>
        hide FlushApply, SelectApply, C.Apply, R.Apply, DialStandin;
      case Select(c) =>
        hide TaskApply, FlushApply, C.Apply, R.Apply, HandleRoutes, AddrForPeer;
    }
  }

  /** The connections after a step that wakes nobody. */
  lemma QuietOwners(s: System, e: Event)
    requires Enabled(s, e) && !WakesAll(s, e)
    ensures
      var x := OwnerStepOf(s, e);
      && (x.Some? ==> C.Enabled(s.owners, x.value) && !x.value.Connected? && !x.value.Lost? && !x.value.Drained? && !x.value.AllClosed?)
      && Apply(s, e).owners == if x.Some? then C.Apply(s.owners, x.value) else s.owners
  {
    hide C.Apply, R.Apply;
    match e {
      case Task(t) =>
        TaskStepsOwners(s, t);
        hide TaskApply;
      case Flush(f) =>
        if f.Turn? {
          assert DrainAllOwners(s.owners, s.routes, f.outputs) == s.owners;
          hide DrainAllRoutes;
        } else {
          FlushStepsOwners(s, f);
          hide FlushApply;
        }
      case Select(c) =>
        SelectStepsOwners(s, c);
        hide SelectApply;
    }
  }

  lemma QuietRelays(s: System, e: Event, url: R.Url)
    requires R.RelaysInv(s.relays) && Enabled(s, e) && !WakesAll(s, e)
    ensures
      var t := Apply(s, e).relays;
      && t.closed == s.relays.closed
      && (R.EnsureWait(s.relays.pool, url, t.closed, false).StillWaiting? ==>
            R.EnsureWait(t.pool, url, t.closed, false).StillWaiting?)
  {
    hide R.Apply, R.RelaysInv, R.EnsureWait, C.Apply;
    if e.Select? && e.select.TickReady? {
      SweepAnswers(s.relays, e.select.now, e.select.dead, url);
      hide Sweep;
    } else {
      match e {
        case Task(t) => TaskStepsRelays(s, t);
        case Flush(f) => FlushStepsRelays(s, f);
        case Select(c) => SelectStepsRelays(s, c);
      }
      hide TaskApply, FlushApply, SelectApply, R.Enabled, Enabled;
      var x := RelayStepOf(s, e);
      if x.Some? {
        RelayStepAnswers(s.relays, x.value, url);
      }
    }
  }

  lemma QuietSignals(s: System, e: Event, peer: EndpointId)
    requires Enabled(s, e) && !WakesAll(s, e) && G.PopInbox(s.sessions.signals, peer).1 == None
    ensures G.PopInbox(Apply(s, e).sessions.signals, peer).1 == None
  {
    match e {
      case Task(t) =>
        QuietTaskSignals(s, t, peer);
      case Flush(f) =>
        FlushKeepsInboxes(s, f);
      case Select(c) =>
        QuietSelectSessions(s, c);
    }
    hide TaskApply, FlushApply, SelectApply, TaskEnabled, FlushEnabled, SelectEnabled;
  }

  lemma FlushKeepsInboxes(s: System, e: FlushEvent)
    requires FlushEnabled(s, e)
    ensures FlushApply(s, e).sessions.signals.inboxes == s.sessions.signals.inboxes
  {
    if e.ArmTurn? {
      ArmKeepsInboxes(s, e.lingered);
      hide ArmStep, TurnStep, RelayTurnStep, UdpTurnStep, ChannelTurnStep;
    } else if e.Turn? {
      hide ArmStep, RelayTurnStep, UdpTurnStep, ChannelTurnStep, DrainAllRoutes, DrainAllOwners, OutputsFit;
    } else {
      MiddleFlush(s, e);
      hide FlushApply;
    }
  }

  lemma ArmKeepsInboxes(s: System, lingered: bool)
    ensures ArmStep(s, lingered).sessions.signals.inboxes == s.sessions.signals.inboxes
  {
    hide R.Apply, C.AllSettled, NewIds;
  }

  lemma QuietSelectSessions(s: System, e: SelectEvent)
    requires SelectEnabled(s, e) && !WakesAll(s, Select(e))
    ensures SelectApply(s, e).sessions == s.sessions
  {
    if e.RelayReady? {
      hide R.Apply, C.Apply, HandleRoutes, AddrForPeer;
    } else if e.ChannelReady? {
      hide C.Apply, HandleRoutes, AddrForPeer, RetireChannel;
    } else {
      hide R.Apply, C.Apply, HandleRoutes, Sweep, RelayReadyStep, ChannelReadyStep;
    }
  }

  lemma SessionsFileNothing(g: G.Sessions, id: nat, peer: EndpointId)
    requires id in g.live && G.PopInbox(g.signals, peer).1 == None
    ensures G.PopInbox(G.ReadSignal(g, id).signals, peer).1 == None
    ensures G.PopInbox(G.EndSession(g, id).signals, peer).1 == None
  {
  }

  lemma BeginFilesNothing(g: G.Sessions, p: EndpointId, via: nat, peer: EndpointId)
    requires (p, via) in g.spawned && G.PopInbox(g.signals, peer).1 == None
    ensures G.PopInbox(G.BeginUpgrade(g, p, via).signals, peer).1 == None
  {
  }

  lemma QuietTaskSignals(s: System, e: TaskEvent, peer: EndpointId)
    requires TaskEnabled(s, e) && G.PopInbox(s.sessions.signals, peer).1 == None
    ensures G.PopInbox(TaskApply(s, e).sessions.signals, peer).1 == None
  {
    if !TouchesSessions(e) {
      OtherTasksKeepSessions(s, e);
      hide TaskApply;
    } else if e.Connect? {
      ConnectKeepsInboxes(s, e);
      hide TaskApply;
    } else {
      hide G.ReadSignal, G.EndSession, G.BeginUpgrade, G.PopInbox, G.ChannelFallback, RegisterChannel, ConnectStep, OwnerStep, StreamStep, DialerStep;
      match e {
        case UpgradeBegins(p, via) => BeginFilesNothing(s.sessions, p, via, peer);
        case ReadsSignal(id) => SessionsFileNothing(s.sessions, id, peer);
        case SessionFails(id) => SessionsFileNothing(s.sessions, id, peer);
        case ChannelOpens(id, wire) => SessionsFileNothing(s.sessions, id, peer);
      }
    }
  }

  lemma ConnectKeepsInboxes(s: System, e: TaskEvent)
    requires TaskEnabled(s, e) && e.Connect?
    ensures TaskApply(s, e).sessions.signals.inboxes == s.sessions.signals.inboxes
  {
    hide C.Apply, DialStandin;
  }

  /** No wake-up is lost: a step that gives a parked waiter's check its answer
      fires the waiter's waker; or it put a new connection into the very slot the
      waiter's dial had, and the pump's next turn, which comes without waiting,
      finds noq with that connection's events and packets to drain. */
  lemma AnswersWake(s: System, e: Event, task: TaskId, check: Check)
    requires SystemInv(s) && Enabled(s, e)
    requires task in s.wake.waiters && !Answered(s, check) && Answered(Apply(s, e), check)
    ensures
      var t := Apply(s, e);
      || task in t.wake.ready
      || (check.ForDial? && OwesWake(t) && OwnerStepOf(s, e).Some?
          && (OwnerStepOf(s, e).value.Dialed? || OwnerStepOf(s, e).value.Incoming?))
  {
    hide SystemInv, Apply, Enabled, C.Apply, C.OwnersInv, R.RelaysInv, C.PollDial, G.PopInbox, R.EnsureWait, OwesWake;
    InvParts(s);
    if WakesAll(s, e) {
      WakesAllReadies(s, e, task);
    } else {
      var url := match check case ForRelay(u) => u case _ => "";
      QuietRelays(s, e, url);
      QuietOwners(s, e);
      var x := OwnerStepOf(s, e);
      match check {
        case ForAccept =>
          AcceptableIsAnswered(s.owners.conns);
          AcceptableIsAnswered(Apply(s, e).owners.conns);
          hide Acceptable, C.AcceptPoll, C.Enabled;
          if x.Some? {
            OwnerStepAnswers(s.owners, x.value, C.Ref(0, 0));
          }
        case ForDial(ref) =>
          if x.Some? {
            if x.value.Dialed? || x.value.Incoming? {
              NewcomersOweWakes(s, e);
            } else {
              OwnerStepAnswers(s.owners, x.value, ref);
            }
          }
        case ForRelay(_) =>
        case ForSignal(peer) =>
          QuietSignals(s, e, peer);
      }
    }
  }
}

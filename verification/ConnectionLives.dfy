/** What became of one connection, told by the events since it entered its slot
    (endpoint/src/endpoint_impl.rs). */
module ConnectionLives {
  import opened Types
  import opened Connections

  // ----- a life, from its events alone -----

  /** The step puts a new connection into a slot. */
  predicate Enters(s: Owners, e: ConnEvent) {
    e.Dialed? || (e.Incoming? && AcceptBacklog(s.conns) < ACCEPT_BACKLOG)
  }

  function Entrant(s: Owners, e: ConnEvent): Ref
    requires Enters(s, e)
  {
    Ref(e.handle, s.conns.nextEpoch)
  }

  /** The identity it was named with: the dialed peer, or the datagram's source. */
  function NameOf(e: ConnEvent): Option<EndpointId> {
    match e
    case Dialed(_, peer) => Some(peer)
    case Incoming(_, source) => source
    case _ => None
  }

  predicate Proves(name: Option<EndpointId>, tlsPeer: Option<EndpointId>) {
    tlsPeer.Some? && (name.Some? ==> tlsPeer == name)
  }

  /** Its handshake ended, with an identity that is not the one it was named with. */
  predicate Disproved(e: ConnEvent, h: Handle, name: Option<EndpointId>) {
    e.Connected? && e.handle == h && !Proves(name, e.tlsPeer)
  }

  /** The error the latest failure leaves. */
  function FailureOf(es: seq<ConnEvent>, h: Handle, name: Option<EndpointId>): Option<Error> {
    if es == [] then None
    else
      var e := es[|es| - 1];
      if Disproved(e, h, name) then Some(ConnectFailed)
      else if e == Lost(h, ApplicationClosed) || e == Lost(h, LocallyClosed) then Some(Closed)
      else if e == Lost(h, IdleTimedOut) then Some(TimedOut)
      else if e == Lost(h, TransportLost) then Some(Other)
      else FailureOf(es[..|es| - 1], h, name)
  }

  predicate Unended(es: seq<ConnEvent>, h: Handle, name: Option<EndpointId>) {
    FailureOf(es, h, name) == None && Drained(h) !in es
  }

  /** This side closes it: the whole endpoint closes, its own guard or resource
      does, or its handshake proved the wrong identity. */
  predicate ClosesIt(e: ConnEvent, ref: Ref, name: Option<EndpointId>) {
    || e == AllClosed || e == DialCancelled(ref) || e == ResourceClosed(ref) || e == ResourceDropped(ref)
    || Disproved(e, ref.handle, name)
  }

  /** It was closed while neither failed nor drained. */
  ghost predicate WasClosed(es: seq<ConnEvent>, ref: Ref, name: Option<EndpointId>) {
    exists i :: 0 <= i < |es| && ClosesIt(es[i], ref, name) && Unended(es[..i], ref.handle, name)
  }

  /** The entry is what the events since made of it. */
  ghost predicate TellsItsLife(e: ConnEntry, ref: Ref, accepted: bool, name: Option<EndpointId>, es: seq<ConnEvent>) {
    && e.epoch == ref.epoch && e.accepted == accepted && e.expectedPeer == name
    && (e.connected <==> e.peer.Some?)
    && (forall q :: e.peer == Some(q) <==> Connected(ref.handle, Some(q)) in es && Proves(name, Some(q)))
    && e.error == FailureOf(es, ref.handle, name)
    && (e.drained <==> Drained(ref.handle) in es)
    && (e.closing <==> WasClosed(es, ref, name))
    && (forall x :: x in es && Disproved(x, ref.handle, name) ==> !e.connected && e.error.Some? && e.closing)
  }

  // ----- one more event -----

  lemma FailureAfter(es: seq<ConnEvent>, e: ConnEvent, h: Handle, name: Option<EndpointId>)
    ensures FailureOf(es + [e], h, name) ==
      if Disproved(e, h, name) then Some(ConnectFailed)
      else if e.Lost? && e.handle == h then Some(match e.reason
                                                 case ApplicationClosed => Closed
                                                 case LocallyClosed => Closed
                                                 case IdleTimedOut => TimedOut
                                                 case TransportLost => Other)
      else FailureOf(es, h, name)
  {
    assert (es + [e])[..|es|] == es;
  }

  lemma ClosedAfter(es: seq<ConnEvent>, e: ConnEvent, ref: Ref, name: Option<EndpointId>)
    ensures WasClosed(es + [e], ref, name) <==>
      WasClosed(es, ref, name) || (ClosesIt(e, ref, name) && Unended(es, ref.handle, name))
  {
    hide ClosesIt, Unended;
    var all := es + [e];
    assert all[..|es|] == es && all[|es|] == e;
    assert forall i :: 0 <= i < |es| ==> all[..i] == es[..i] && all[i] == es[i];
  }

  /** Events that say nothing of the connection leave its entry as it is. */
  predicate Concerns(e: ConnEvent, ref: Ref) {
    || (e.Connected? && e.handle == ref.handle)
    || (e.Lost? && e.handle == ref.handle)
    || e == Drained(ref.handle)
    || e == AllClosed || e == DialCancelled(ref) || e == ResourceClosed(ref) || e == ResourceDropped(ref)
  }

  lemma OtherEventsTellNothing(e: ConnEntry, ref: Ref, accepted: bool, name: Option<EndpointId>, es: seq<ConnEvent>, x: ConnEvent)
    requires TellsItsLife(e, ref, accepted, name, es) && !Concerns(x, ref)
    ensures TellsItsLife(e, ref, accepted, name, es + [x])
  {
    FailureAfter(es, x, ref.handle, name);
    ClosedAfter(es, x, ref, name);
    hide WasClosed, FailureOf, Unended;
  }

  lemma OtherEventsDoNothing(s: Owners, e: ConnEvent, ref: Ref)
    requires Enabled(s, e) && IsCurrent(s.conns, ref) && IsCurrent(Apply(s, e).conns, ref)
    requires ref.epoch < s.conns.nextEpoch && !Concerns(e, ref)
    ensures Apply(s, e).conns.entries[ref.handle] == s.conns.entries[ref.handle]
  {
    if e.AcceptPolled? {
      AcceptTouchesNoEntry(s);
    }
    hide AcceptStep, AcceptBacklog;
  }

  lemma EndsAreTold(s: Owners, e: ConnEvent, ref: Ref, accepted: bool, name: Option<EndpointId>, es: seq<ConnEvent>)
    requires Enabled(s, e) && IsCurrent(s.conns, ref) && Concerns(e, ref) && (e.Lost? || e.Drained?)
    requires TellsItsLife(s.conns.entries[ref.handle], ref, accepted, name, es)
    ensures TellsItsLife(Apply(s, e).conns.entries[ref.handle], ref, accepted, name, es + [e])
  {
    FailureAfter(es, e, ref.handle, name);
    ClosedAfter(es, e, ref, name);
    hide WasClosed, FailureOf, AcceptStep, AcceptBacklog, Insert, OnConnected, PollDial, CloseRef, CloseAll;
  }

  lemma ClosesAreTold(s: Owners, e: ConnEvent, ref: Ref, accepted: bool, name: Option<EndpointId>, es: seq<ConnEvent>)
    requires Enabled(s, e) && IsCurrent(s.conns, ref) && Concerns(e, ref) && ClosesIt(e, ref, name) && !e.Connected?
    requires TellsItsLife(s.conns.entries[ref.handle], ref, accepted, name, es)
    ensures TellsItsLife(Apply(s, e).conns.entries[ref.handle], ref, accepted, name, es + [e])
  {
    FailureAfter(es, e, ref.handle, name);
    ClosedAfter(es, e, ref, name);
    CloseCloses(s, e, ref);
    hide WasClosed, FailureOf, Apply, Enabled;
  }

  /** A close marks its connection closed exactly when that has neither failed nor drained. */
  lemma CloseCloses(s: Owners, e: ConnEvent, ref: Ref)
    requires Enabled(s, e) && IsCurrent(s.conns, ref)
    requires e == AllClosed || e == DialCancelled(ref) || e == ResourceClosed(ref) || e == ResourceDropped(ref)
    ensures
      var entry := s.conns.entries[ref.handle];
      Apply(s, e).conns.entries[ref.handle]
        == if entry.error == None && !entry.drained then entry.(closing := true) else entry
  {
    hide AcceptStep, AcceptBacklog, Insert, OnConnected, PollDial;
  }

  lemma HandshakeIsTold(s: Owners, e: ConnEvent, ref: Ref, accepted: bool, name: Option<EndpointId>, es: seq<ConnEvent>)
    requires Enabled(s, e) && IsCurrent(s.conns, ref) && Concerns(e, ref) && e.Connected?
    requires TellsItsLife(s.conns.entries[ref.handle], ref, accepted, name, es)
    ensures TellsItsLife(Apply(s, e).conns.entries[ref.handle], ref, accepted, name, es + [e])
  {
    FailureAfter(es, e, ref.handle, name);
    ClosedAfter(es, e, ref, name);
    hide WasClosed, FailureOf, AcceptStep, AcceptBacklog, Insert, PollDial, CloseRef, CloseAll, OnLost, OnDrained;
  }

  /** What a step does to an entry that keeps its slot. */
  lemma StepTells(s: Owners, e: ConnEvent, ref: Ref, accepted: bool, name: Option<EndpointId>, es: seq<ConnEvent>)
    requires Enabled(s, e) && IsCurrent(s.conns, ref)
    requires TellsItsLife(s.conns.entries[ref.handle], ref, accepted, name, es)
    requires IsCurrent(Apply(s, e).conns, ref) && ref.epoch < s.conns.nextEpoch
    ensures TellsItsLife(Apply(s, e).conns.entries[ref.handle], ref, accepted, name, es + [e])
  {
    hide TellsItsLife, Apply, Enabled;
    if !Concerns(e, ref) {
      OtherEventsDoNothing(s, e, ref);
      OtherEventsTellNothing(s.conns.entries[ref.handle], ref, accepted, name, es, e);
    } else if e.Connected? {
      HandshakeIsTold(s, e, ref, accepted, name, es);
    } else if e.Lost? || e.Drained? {
      EndsAreTold(s, e, ref, accepted, name, es);
    } else {
      ClosesAreTold(s, e, ref, accepted, name, es);
    }
  }

  lemma {:induction false} LifeGoesOn(s: Owners, ref: Ref, accepted: bool, name: Option<EndpointId>, past: seq<ConnEvent>, es: seq<ConnEvent>)
    requires OwnersInv(s) && IsRun(s, es) && Stamped(s.conns, ref)
    requires IsCurrent(s.conns, ref) ==> TellsItsLife(s.conns.entries[ref.handle], ref, accepted, name, past)
    ensures
      var t := After(s, es);
      IsCurrent(t.conns, ref) ==> TellsItsLife(t.conns.entries[ref.handle], ref, accepted, name, past + es)
    decreases |es|
  {
    hide OwnersInv, Apply, Enabled, TellsItsLife;
    if es == [] {
      assert past + es == past;
    } else {
      var t := Apply(s, es[0]);
      StepKeepsInv(s, es[0]);
      StampStays(s, es[0], ref);
      if IsCurrent(s.conns, ref) && IsCurrent(t.conns, ref) {
        StepTells(s, es[0], ref, accepted, name, past);
      } else if !IsCurrent(s.conns, ref) {
        StampsOnlyGrow(s, es[0], ref);
      }
      LifeGoesOn(t, ref, accepted, name, past + [es[0]], es[1..]);
      assert past + [es[0]] + es[1..] == past + es;
    }
  }

  lemma StampStays(s: Owners, e: ConnEvent, ref: Ref)
    requires OwnersInv(s) && Enabled(s, e) && Stamped(s.conns, ref)
    ensures Stamped(Apply(s, e).conns, ref)
  {
    hide AcceptOrder, OneOwner, Backlogged, Enabled;
    if !e.Incoming? && !e.Dialed? {
      RestampedAlike(s, e);
      hide Apply;
    }
  }

  /** Whatever happens after a connection entered its slot: as long as it keeps the
      slot, every field of its entry is what the events since say. */
  lemma EveryLifeIsTold(s: Owners, e: ConnEvent, es: seq<ConnEvent>)
    requires OwnersInv(s) && Enabled(s, e) && Enters(s, e) && IsRun(Apply(s, e), es)
    ensures
      var ref, t := Entrant(s, e), After(Apply(s, e), es);
      IsCurrent(t.conns, ref) ==> TellsItsLife(t.conns.entries[ref.handle], ref, e.Incoming?, NameOf(e), es)
  {
    var ref := Entrant(s, e);
    Enrolled(s, e);
    StepKeepsInv(s, e);
    hide OwnersInv, Apply, Enabled, TellsItsLife;
    LifeGoesOn(Apply(s, e), ref, e.Incoming?, NameOf(e), [], es);
    assert [] + es == es;
  }

  lemma Enrolled(s: Owners, e: ConnEvent)
    requires Enabled(s, e) && Enters(s, e)
    ensures
      var ref, t := Entrant(s, e), Apply(s, e);
      && Stamped(t.conns, ref) && IsCurrent(t.conns, ref)
      && TellsItsLife(t.conns.entries[ref.handle], ref, e.Incoming?, NameOf(e), [])
  {
  }

  // ----- what that means -----

  /** Handed to an acceptor, or to be; held by a resource; or its dial succeeds. */
  ghost predicate Surfaced(t: Owners, ref: Ref) {
    ref in t.conns.acceptQueue || ref in t.resources || PollDial(t.conns, ref).DialDone?
  }

  lemma SurfacedIsConnected(t: Owners, ref: Ref)
    requires OwnersInv(t) && Authentic(t) && IsCurrent(t.conns, ref) && Surfaced(t, ref)
    ensures t.conns.entries[ref.handle].connected
  {
    hide OneOwner, Backlogged, EpochsAreFresh;
    if ref in t.conns.acceptQueue {
      assert ref in t.connectedLog;
    }
  }

  /** In every run: a connection is surfaced, and shown connected, only with the
      identity its handshake proved, and that is the one it was named with. */
  lemma SurfacedProvedItsName(before: seq<ConnEvent>, e: ConnEvent, es: seq<ConnEvent>)
    requires IsRun(NoConns(), before) && Enabled(After(NoConns(), before), e) && Enters(After(NoConns(), before), e)
    requires IsRun(Apply(After(NoConns(), before), e), es)
    ensures
      var ref, t := Entrant(After(NoConns(), before), e), After(Apply(After(NoConns(), before), e), es);
      IsCurrent(t.conns, ref) && (Surfaced(t, ref) || t.conns.entries[ref.handle].connected) ==>
        var peer := t.conns.entries[ref.handle].peer;
        peer.Some? && Connected(ref.handle, peer) in es && (NameOf(e).Some? ==> peer == NameOf(e))
  {
    var s, ref := After(NoConns(), before), Entrant(After(NoConns(), before), e);
    NoConnsIsGood();
    hide OwnersInv, Authentic;
    RunKeepsInv(NoConns(), before);
    assert Authentic(NoConns()) by {
      EmptyIsAuthentic();
    }
    RunKeepsAuthentic(NoConns(), before);
    StepKeepsInv(s, e);
    StepKeepsAuthentic(s, e);
    RunKeepsInv(Apply(s, e), es);
    RunKeepsAuthentic(Apply(s, e), es);
    EveryLifeIsTold(s, e, es);
    var t := After(Apply(s, e), es);
    if IsCurrent(t.conns, ref) && Surfaced(t, ref) {
      SurfacedIsConnected(t, ref);
    }
  }

  lemma EmptyIsAuthentic()
    ensures Authentic(NoConns())
  {
  }

  /** A handshake that proved another identity leaves its connection failed and
      closed for good, never surfaced. */
  lemma WrongIdentityIsNeverSurfaced(before: seq<ConnEvent>, e: ConnEvent, es: seq<ConnEvent>, tlsPeer: Option<EndpointId>)
    requires IsRun(NoConns(), before) && Enabled(After(NoConns(), before), e) && Enters(After(NoConns(), before), e)
    requires IsRun(Apply(After(NoConns(), before), e), es)
    requires Connected(e.handle, tlsPeer) in es && (NameOf(e).Some? ==> tlsPeer != NameOf(e))
    requires NameOf(e) == None ==> tlsPeer == None
    ensures
      var ref, t := Entrant(After(NoConns(), before), e), After(Apply(After(NoConns(), before), e), es);
      IsCurrent(t.conns, ref) ==>
        && !Surfaced(t, ref)
        && t.conns.entries[ref.handle].peer == None && t.conns.entries[ref.handle].error.Some?
        && t.conns.entries[ref.handle].closing
  {
    var s, ref := After(NoConns(), before), Entrant(After(NoConns(), before), e);
    NoConnsIsGood();
    hide OwnersInv, Authentic;
    RunKeepsInv(NoConns(), before);
    SurfacedProvedItsName(before, e, es);
    EveryLifeIsTold(s, e, es);
    assert Disproved(Connected(e.handle, tlsPeer), ref.handle, NameOf(e));
  }

  /** What a poll of a dial answers: done once the handshake has proved the dialed
      peer and nothing has failed since; else the latest failure, a loss on the
      way or a wrong identity as a failed connect. */
  lemma DialAnswersItsLife(s: Owners, e: ConnEvent, es: seq<ConnEvent>)
    requires OwnersInv(s) && Enabled(s, e) && e.Dialed? && IsRun(Apply(s, e), es)
    ensures
      var ref, t := Entrant(s, e), After(Apply(s, e), es);
      var failure, answer := FailureOf(es, e.handle, NameOf(e)), PollDial(t.conns, ref);
      if !IsCurrent(t.conns, ref) then answer == DialFailed(Closed)
      else
        && (answer.DialDone? <==> failure == None && Connected(e.handle, Some(e.peer)) in es)
        && (answer.DialFailed? <==> failure.Some?)
        && (failure == Some(Closed) || failure == Some(TimedOut) ==> answer == DialFailed(failure.value))
        && (failure == Some(Other) || failure == Some(ConnectFailed) ==> answer == DialFailed(ConnectFailed))
        && (failure.Some? ==> failure.value in {Closed, TimedOut, Other, ConnectFailed})
  {
    EveryLifeIsTold(s, e, es);
    FailuresAre(es, e.handle, NameOf(e));
    hide OwnersInv, Apply, Enabled, WasClosed, FailureOf;
    var ref, t := Entrant(s, e), After(Apply(s, e), es);
    if IsCurrent(t.conns, ref) {
      var entry := t.conns.entries[ref.handle];
      assert entry.peer.Some? ==> Proves(NameOf(e), Some(entry.peer.value));
    }
  }

  lemma {:induction false} FailuresAre(es: seq<ConnEvent>, h: Handle, name: Option<EndpointId>)
    ensures var f := FailureOf(es, h, name); f.Some? ==> f.value in {Closed, TimedOut, Other, ConnectFailed}
  {
    if es != [] {
      FailuresAre(es[..|es| - 1], h, name);
    }
  }

  /** An incoming connection holds a place in the backlog exactly until its
      handshake has ended, it has failed or it has drained. */
  lemma HandshakeHoldsAPlace(s: Owners, e: ConnEvent, es: seq<ConnEvent>)
    requires OwnersInv(s) && Enabled(s, e) && Enters(s, e) && IsRun(Apply(s, e), es)
    ensures
      var ref, t := Entrant(s, e), After(Apply(s, e), es);
      IsCurrent(t.conns, ref) ==>
        (ref.handle in Handshaking(t.conns) <==>
          && e.Incoming? && Unended(es, e.handle, NameOf(e))
          && forall tlsPeer :: Connected(e.handle, tlsPeer) !in es)
  {
    EveryLifeIsTold(s, e, es);
    hide OwnersInv, Apply, Enabled, WasClosed, FailureOf;
    var ref, t := Entrant(s, e), After(Apply(s, e), es);
    if IsCurrent(t.conns, ref) {
      var entry := t.conns.entries[ref.handle];
      forall tlsPeer | Connected(e.handle, tlsPeer) in es ensures !Counted(entry) {
        if Proves(NameOf(e), tlsPeer) {
          assert tlsPeer == Some(tlsPeer.value);
        } else {
          assert Disproved(Connected(e.handle, tlsPeer), ref.handle, NameOf(e));
        }
      }
      if entry.accepted && !Counted(entry) && entry.connected {
        assert Connected(ref.handle, Some(entry.peer.value)) in es;
      }
    }
  }

  /** The pump has nothing left to flush exactly when every connection has failed or
      drained; so one that has done neither keeps it going. */
  lemma UnendedIsUnsettled(s: Owners, e: ConnEvent, es: seq<ConnEvent>)
    requires OwnersInv(s) && Enabled(s, e) && Enters(s, e) && IsRun(Apply(s, e), es)
    ensures
      var ref, t := Entrant(s, e), After(Apply(s, e), es);
      && (AllSettled(t.conns) <==> forall h :: h in t.conns.entries ==> !Closable(t.conns.entries[h]))
      && (IsCurrent(t.conns, ref) && AllSettled(t.conns) ==> !Unended(es, ref.handle, NameOf(e)))
  {
    EveryLifeIsTold(s, e, es);
    hide OwnersInv, Apply, Enabled, WasClosed, FailureOf;
  }
}

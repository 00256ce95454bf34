/** Who a connection of the endpoint is with, whatever happens to it. */
module RuntimeLives {
  import opened Types
  import opened Routing
  import opened Runtime
  import opened RuntimeSafety
  import opened RuntimeRuns
  import R = RelayPool
  import C = Connections
  import L = ConnectionLives
  import H = RuntimeChannels

  lemma OneOwnerStep(s: System, e: Event)
    requires Enabled(s, e) && OwnerStepOf(s, e).Some?
    ensures C.Enabled(s.owners, OwnerStepOf(s, e).value)
    ensures Apply(s, e).owners == C.Apply(s.owners, OwnerStepOf(s, e).value)
  {
    hide TaskApply, FlushApply, SelectApply, TaskEnabled, FlushEnabled, SelectEnabled, C.Apply, C.Enabled;
    match e
    case Task(t) => TaskStepsOwners(s, t);
    case Flush(f) =>
      if !f.Turn? {
        FlushStepsOwners(s, f);
      }
    case Select(c) => SelectStepsOwners(s, c);
  }

  /** A connection over a standin is named after the standin's owner, who owns it for good. */
  lemma NamedAfterTheOwner(s: System, e: Event, es: seq<Event>)
    requires SystemInv(s) && Enabled(s, e) && OwnerStepOf(s, e).Some? && IsRun(Apply(s, e), es)
    requires NewRemote(s, e).Some? && IsStandin(NewRemote(s, e).value)
    ensures
      var t, remote := After(Apply(s, e), es), NewRemote(s, e).value;
      remote in t.routes.addrToPeer && L.NameOf(OwnerStepOf(s, e).value) == Some(t.routes.addrToPeer[remote])
  {
    hide Apply, Enabled, SystemInv, OwnerStepOf, NewRemote, IsStandin;
    InvParts(s);
    StepKeepsInv(s, e);
    RunKeepsInv(Apply(s, e), es);
    ExpectedPeerOwnsTheStandin(s, e);
    hide IsRun, After;
  }

  /** In every run of the endpoint: a connection is surfaced, and shown connected,
      only with the identity its handshake proved. That is the dialed peer, or the
      source the relay or channel vouched for; and for a connection over a standin
      it is the standin's owner, then and ever after. */
  lemma PeersAreWhoTheyWereNamed(homeUrl: R.Url, now: Instant, webrtc: bool, udpBound: bool,
                                 before: seq<Event>, e: Event, es: seq<Event>)
    requires IsRun(Bind(homeUrl, now, webrtc, udpBound), before)
    requires
      var s := After(Bind(homeUrl, now, webrtc, udpBound), before);
      && Enabled(s, e) && OwnerStepOf(s, e).Some? && L.Enters(s.owners, OwnerStepOf(s, e).value)
      && IsRun(Apply(s, e), es)
    ensures
      var s := After(Bind(homeUrl, now, webrtc, udpBound), before);
      var x, t := OwnerStepOf(s, e).value, After(Apply(s, e), es);
      var ref := L.Entrant(s.owners, x);
      C.IsCurrent(t.owners.conns, ref) && (L.Surfaced(t.owners, ref) || t.owners.conns.entries[ref.handle].connected) ==>
        var peer, remote := t.owners.conns.entries[ref.handle].peer, NewRemote(s, e);
        && peer.Some? && (L.NameOf(x).Some? ==> peer == L.NameOf(x))
        && (remote.Some? && IsStandin(remote.value) ==>
              remote.value in t.routes.addrToPeer && peer == Some(t.routes.addrToPeer[remote.value]))
  {
    hide Apply, Enabled, SystemInv, C.Apply, C.Enabled, OwnerStepOf, NewRemote, IsStandin, L.Enters, L.Surfaced;
    var b := Bind(homeUrl, now, webrtc, udpBound);
    var s := After(b, before);
    EveryRunIsGood(homeUrl, now, webrtc, udpBound, before);
    assert b.owners == C.NoConns();
    hide Bind;
    OneOwnerStep(s, e);
    var xs := RunsOwners(b, before);
    var ys := RunsOwners(Apply(s, e), es);
    L.SurfacedProvedItsName(xs, OwnerStepOf(s, e).value, ys);
    if NewRemote(s, e).Some? && IsStandin(NewRemote(s, e).value) {
      NamedAfterTheOwner(s, e, es);
    }
  }

  /** What a stream of a connection finds at its handle: the connection with its
      latest failure, as the events since its entry tell it, exactly as long as it
      keeps its slot. */
  lemma StreamsFindTheirConnection(o: C.Owners, x: C.ConnEvent, es: seq<C.ConnEvent>)
    requires C.OwnersInv(o) && C.Enabled(o, x) && L.Enters(o, x) && C.IsRun(C.Apply(o, x), es)
    ensures
      var ref, t := L.Entrant(o, x), C.After(C.Apply(o, x), es);
      FoundEntry(t.conns, ref) == if C.IsCurrent(t.conns, ref) then Present(L.FailureOf(es, ref.handle, L.NameOf(x))) else Gone
  {
    L.EveryLifeIsTold(o, x, es);
    hide C.OwnersInv, C.Apply, C.Enabled, L.WasClosed, L.FailureOf;
  }

  /** A closed endpoint stays closed and takes no newcomers, over every run: no
      channel is registered, and none carries what it did not carry before. */
  lemma {:induction false} ClosedRegistersNothing(s: System, es: seq<Event>)
    requires IsRun(s, es) && s.relays.closed
    ensures
      var t := After(s, es);
      && t.relays.closed && t.routes.nextChannelId == s.routes.nextChannelId
      && forall id :: id in t.routes.channels && id <= s.routes.nextChannelId ==>
           id in s.routes.channels && t.routes.channels[id] == s.routes.channels[id]
    decreases |es|
  {
    hide Apply, Enabled, R.Apply, R.Enabled;
    if es != [] {
      H.StepStands(s, es[0]);
      var xs := StepsRelays(s, es[0]);
      R.ClosedForGood(s.relays, xs);
      ClosedRegistersNothing(Apply(s, es[0]), es[1..]);
    }
  }
}

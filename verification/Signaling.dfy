/** Signaling sessions: one slot per peer, released by a guard
    (endpoint/src/webrtc.rs, and the signaling half of `State`). */
module Signaling {
  import opened Types
  import opened Routing

  const INBOX_CAP := 64

  type Payload = seq<byte>

  /** The signaling fields of `State`. */
  datatype Signals = Signals(
    enabled: bool,
    slots: map<EndpointId, nat>,
    inboxes: map<EndpointId, seq<Payload>>,
    pendingUpgrades: seq<(EndpointId, nat)>)

  // ----- the operations of `State` -----

  function BeginSignaling(g: Signals, peer: EndpointId, relay: nat): (Signals, bool) {
    if peer in g.slots then (g, false) else (g.(slots := g.slots[peer := relay]), true)
  }

  function EndSignaling(g: Signals, peer: EndpointId): Signals {
    g.(slots := g.slots - {peer}, inboxes := g.inboxes - {peer})
  }

  function SignalingRelay(g: Signals, peer: EndpointId): Option<nat> {
    if peer in g.slots then Some(g.slots[peer]) else None
  }

  function PopInbox(g: Signals, peer: EndpointId): (Signals, Option<Payload>) {
    if peer in g.inboxes && g.inboxes[peer] != [] then
      (g.(inboxes := g.inboxes[peer := g.inboxes[peer][1..]]), Some(g.inboxes[peer][0]))
    else (g, None)
  }

  function InboxOf(g: Signals, peer: EndpointId): seq<Payload> {
    if peer in g.inboxes then g.inboxes[peer] else []
  }

  /** An inbound signal: filed, and whether it spawns an answerer. */
  function HandleSignal(g: Signals, via: nat, source: EndpointId, payload: Payload, closed: bool): (Signals, bool) {
    if !g.enabled || closed then (g, false)
    else
      var spawn := source !in g.slots;
      var slots := if spawn then g.slots[source := via] else g.slots;
      var inbox := InboxOf(g, source);
      (g.(slots := slots,
          inboxes := g.inboxes[source := if |inbox| < INBOX_CAP then inbox + [payload] else inbox]),
       spawn)
  }

  // ----- the machine: the slots and every session -----

  datatype Role = Offerer | Answerer

  /** A live session: the signals filed since it began, and those it has read. */
  datatype Session = Session(peer: EndpointId, role: Role, relay: nat, filed: seq<Payload>, read: seq<Payload>)

  /** `spawned` holds the upgrades the pump has spawned that have not begun;
      `nextSession` names sessions. */
  datatype Sessions = Sessions(
    signals: Signals,
    live: map<nat, Session>,
    spawned: multiset<(EndpointId, nat)>,
    nextSession: nat)

  function NoSessions(enabled: bool): Sessions {
    Sessions(Signals(enabled, map[], map[], []), map[], multiset{}, 0)
  }

  function Open(s: Sessions, peer: EndpointId, role: Role, relay: nat): Sessions {
    s.(live := s.live[s.nextSession := Session(peer, role, relay, [], [])], nextSession := s.nextSession + 1)
  }

  /** `upgrade` reaches `begin_signaling`; refused, it ends with no guard made. */
  function BeginUpgrade(s: Sessions, peer: EndpointId, via: nat): Sessions
    requires (peer, via) in s.spawned
  {
    var (signals, begun) := BeginSignaling(s.signals, peer, via);
    var s1 := s.(signals := signals, spawned := s.spawned - multiset{(peer, via)});
    if begun then Open(s1, peer, Offerer, via) else s1
  }

  /** The session of `peer`, if one is live. */
  ghost predicate IsSessionOf(s: Sessions, id: nat, peer: EndpointId) {
    id in s.live && s.live[id].peer == peer
  }

  /** A signal filed under a held slot joins its session's record; past the cap it is lost. */
  function Filed(s: Session, before: nat, payload: Payload): Session {
    if before < INBOX_CAP then s.(filed := s.filed + [payload]) else s
  }

  function ReceiveSignal(s: Sessions, via: nat, source: EndpointId, payload: Payload, closed: bool): Sessions {
    var (signals, spawn) := HandleSignal(s.signals, via, source, payload, closed);
    if !s.signals.enabled || closed then s
    else
      var s1 := s.(signals := signals);
      var s2 := if spawn then Open(s1, source, Answerer, via) else s1;
      var before := |InboxOf(s.signals, source)|;
      s2.(live := map id | id in s2.live ::
                    if s2.live[id].peer == source then Filed(s2.live[id], before, payload) else s2.live[id])
  }

  /** Session `id` takes its next signal, if one is filed. */
  function ReadSignal(s: Sessions, id: nat): Sessions
    requires id in s.live
  {
    var (signals, taken) := PopInbox(s.signals, s.live[id].peer);
    match taken
    case Some(payload) =>
      s.(signals := signals, live := s.live[id := s.live[id].(read := s.live[id].read + [payload])])
    case None => s
  }

  /** The session's guard drops: on success, failure or cancellation alike. */
  function EndSession(s: Sessions, id: nat): Sessions
    requires id in s.live
  {
    s.(signals := EndSignaling(s.signals, s.live[id].peer), live := s.live - {id})
  }

  /** The fallback `register_channel` records for the channel of session `id`:
      the offerer's guard has dropped by then, the answerer's has not. */
  function ChannelFallback(s: Sessions, id: nat): nat
    requires id in s.live
  {
    var peer := s.live[id].peer;
    var g := if s.live[id].role.Offerer? then EndSession(s, id).signals else s.signals;
    match SignalingRelay(g, peer) case Some(relay) => relay case None => HOME_RELAY
  }

  function RequestUpgrade(s: Sessions, peer: EndpointId, key: nat): Sessions {
    s.(signals := s.signals.(pendingUpgrades := s.signals.pendingUpgrades + [(peer, key)]))
  }

  function SpawnUpgrades(s: Sessions): Sessions {
    s.(signals := s.signals.(pendingUpgrades := []), spawned := s.spawned + multiset(s.signals.pendingUpgrades))
  }

  // ----- what every step keeps -----

  /** A live session holds its peer's slot, alone, with the relay it speaks through. */
  ghost predicate SessionsHoldSlots(s: Sessions) {
    && (forall id :: id in s.live ==>
          s.live[id].peer in s.signals.slots && s.signals.slots[s.live[id].peer] == s.live[id].relay)
    && (forall i, j :: i in s.live && j in s.live && s.live[i].peer == s.live[j].peer ==> i == j)
    && (forall id :: id in s.live ==> id < s.nextSession)
  }

  /** No slot is held without a live session. */
  ghost predicate SlotsHaveSessions(s: Sessions) {
    forall p :: p in s.signals.slots ==> exists id :: IsSessionOf(s, id, p)
  }

  /** An inbox exists only under a held slot, within the cap. */
  ghost predicate InboxesUnderSlots(s: Sessions) {
    forall p :: p in s.signals.inboxes ==> p in s.signals.slots && |s.signals.inboxes[p]| <= INBOX_CAP
  }

  /** A session has read, in order, exactly the signals filed during its own
      tenure that are not still unread. */
  ghost predicate ReadsAreTenured(s: Sessions) {
    forall id :: id in s.live ==> ReadsItsOwn(s.live[id], InboxOf(s.signals, s.live[id].peer))
  }

  ghost predicate ReadsItsOwn(session: Session, unread: seq<Payload>) {
    session.read + unread == session.filed
  }

  ghost predicate SessionsInv(s: Sessions) {
    SessionsHoldSlots(s) && SlotsHaveSessions(s) && InboxesUnderSlots(s) && ReadsAreTenured(s)
  }

  lemma NoSessionsIsGood(enabled: bool)
    ensures SessionsInv(NoSessions(enabled))
  {
  }

  lemma SlotsKeepSessions(s: Sessions, t: Sessions)
    requires SlotsHaveSessions(s)
    requires forall p :: p in t.signals.slots && p !in s.signals.slots ==> exists id :: IsSessionOf(t, id, p)
    requires forall id, p :: IsSessionOf(s, id, p) && p in t.signals.slots ==> IsSessionOf(t, id, p)
    ensures SlotsHaveSessions(t)
  {
    forall p | p in t.signals.slots ensures exists id :: IsSessionOf(t, id, p) {
      if p in s.signals.slots {
        var id :| IsSessionOf(s, id, p);
        assert IsSessionOf(t, id, p);
      }
    }
  }

  /** Steps that open and end no session. */
  lemma SameSessionsKeepSlots(s: Sessions, t: Sessions)
    requires SessionsHoldSlots(s) && SlotsHaveSessions(s)
    requires t.signals.slots == s.signals.slots && t.nextSession == s.nextSession && t.live.Keys == s.live.Keys
    requires forall id :: id in s.live ==> t.live[id].peer == s.live[id].peer && t.live[id].relay == s.live[id].relay
    ensures SessionsHoldSlots(t) && SlotsHaveSessions(t)
  {
    hide SlotsHaveSessions;
    SlotsKeepSessions(s, t);
  }

  lemma OpenKeeps(s: Sessions, t: Sessions, peer: EndpointId, role: Role, relay: nat)
    requires SessionsInv(s) && peer !in s.signals.slots
    requires t == Open(s.(signals := s.signals.(slots := s.signals.slots[peer := relay])), peer, role, relay)
    ensures SessionsInv(t)
    ensures IsSessionOf(t, s.nextSession, peer) && InboxOf(t.signals, peer) == []
  {
    hide SlotsHaveSessions, ReadsItsOwn;
    assert peer !in s.signals.inboxes;
    assert IsSessionOf(t, s.nextSession, peer);
    SlotsKeepSessions(s, t);
    assert ReadsItsOwn(t.live[s.nextSession], []) by {
      assert [] + InboxOf(t.signals, peer) == [];
      FreshSessionReads(peer, role, relay);
    }
  }

  lemma FreshSessionReads(peer: EndpointId, role: Role, relay: nat)
    ensures ReadsItsOwn(Session(peer, role, relay, [], []), [])
  {
  }

  lemma BeginUpgradeKeeps(s: Sessions, peer: EndpointId, via: nat)
    requires SessionsInv(s) && (peer, via) in s.spawned
    ensures SessionsInv(BeginUpgrade(s, peer, via))
    ensures peer in s.signals.slots ==>
      BeginUpgrade(s, peer, via).signals == s.signals && BeginUpgrade(s, peer, via).live == s.live
  {
    hide SessionsInv;
    var s1 := s.(spawned := s.spawned - multiset{(peer, via)});
    UpgradeQueueKeeps(s, s1);
    if peer !in s.signals.slots {
      OpenKeeps(s1, BeginUpgrade(s, peer, via), peer, Offerer, via);
    }
  }

  /** Filing one signal under a held slot. */
  lemma FileKeeps(s: Sessions, source: EndpointId, payload: Payload, t: Sessions)
    requires SessionsInv(s) && source in s.signals.slots
    requires
      var inbox := InboxOf(s.signals, source);
      && t.signals == s.signals.(inboxes := s.signals.inboxes[source := if |inbox| < INBOX_CAP then inbox + [payload] else inbox])
      && t.nextSession == s.nextSession
      && t.live == map id | id in s.live ::
           if s.live[id].peer == source then Filed(s.live[id], |inbox|, payload) else s.live[id]
    ensures SessionsInv(t)
  {
    hide SlotsHaveSessions, ReadsItsOwn;
    var inbox := InboxOf(s.signals, source);
    SameSessionsKeepSlots(s, t);
    hide SessionsHoldSlots;
    forall id | id in t.live ensures ReadsItsOwn(t.live[id], InboxOf(t.signals, t.live[id].peer)) {
      assert ReadsItsOwn(s.live[id], InboxOf(s.signals, s.live[id].peer));
      if s.live[id].peer == source {
        FiledIsUnread(s.live[id], inbox, payload);
      }
    }
    hide ReadsAreTenured;
  }

  lemma FiledIsUnread(session: Session, inbox: seq<Payload>, payload: Payload)
    requires ReadsItsOwn(session, inbox)
    ensures ReadsItsOwn(Filed(session, |inbox|, payload), if |inbox| < INBOX_CAP then inbox + [payload] else inbox)
  {
    assert session.read + (inbox + [payload]) == (session.read + inbox) + [payload];
  }

  lemma ReceiveSignalKeeps(s: Sessions, via: nat, source: EndpointId, payload: Payload, closed: bool)
    requires SessionsInv(s)
    ensures SessionsInv(ReceiveSignal(s, via, source, payload, closed))
  {
    hide SessionsInv, InboxOf;
    if s.signals.enabled && !closed {
      var t := ReceiveSignal(s, via, source, payload, closed);
      if source in s.signals.slots {
        FileKeeps(s, source, payload, t);
      } else {
        var g := s.signals.(slots := s.signals.slots[source := via]);
        var mid := Open(s.(signals := g), source, Answerer, via);
        OpenKeeps(s, mid, source, Answerer, via);
        SameInbox(s.signals, mid.signals, source);
        FileKeeps(mid, source, payload, t);
      }
    }
  }

  lemma SameInbox(g: Signals, h: Signals, p: EndpointId)
    requires g.inboxes == h.inboxes
    ensures InboxOf(g, p) == InboxOf(h, p)
  {
  }

  lemma ReadSignalKeeps(s: Sessions, id: nat)
    requires SessionsInv(s) && id in s.live
    ensures SessionsInv(ReadSignal(s, id))
  {
    hide SlotsHaveSessions, ReadsAreTenured, InboxesUnderSlots;
    var t := ReadSignal(s, id);
    SameSessionsKeepSlots(s, t);
    ReadSignalReads(s, id);
    assert InboxesUnderSlots(t) by {
      ReadSignalInboxes(s, id);
    }
  }

  lemma ReadSignalInboxes(s: Sessions, id: nat)
    requires InboxesUnderSlots(s) && id in s.live
    ensures InboxesUnderSlots(ReadSignal(s, id))
  {
  }

  lemma ReadSignalReads(s: Sessions, id: nat)
    requires SessionsHoldSlots(s) && ReadsAreTenured(s) && id in s.live
    ensures ReadsAreTenured(ReadSignal(s, id))
  {
    hide ReadsItsOwn;
    var t := ReadSignal(s, id);
    var inbox := InboxOf(s.signals, s.live[id].peer);
    forall i | i in t.live ensures ReadsItsOwn(t.live[i], InboxOf(t.signals, t.live[i].peer)) {
      assert ReadsItsOwn(s.live[i], InboxOf(s.signals, s.live[i].peer));
      if inbox != [] {
        if i == id {
          ReadNext(s.live[i], inbox);
        } else {
          assert s.live[i].peer != s.live[id].peer;
        }
      }
    }
  }

  lemma ReadNext(session: Session, inbox: seq<Payload>)
    requires ReadsItsOwn(session, inbox) && inbox != []
    ensures ReadsItsOwn(session.(read := session.read + [inbox[0]]), inbox[1..])
  {
    assert session.read + inbox == (session.read + [inbox[0]]) + inbox[1..];
  }

  lemma EndSessionKeeps(s: Sessions, id: nat)
    requires SessionsInv(s) && id in s.live
    ensures SessionsInv(EndSession(s, id))
    ensures s.live[id].peer !in EndSession(s, id).signals.slots
  {
    hide SlotsHaveSessions, ReadsAreTenured;
    var t := EndSession(s, id);
    SlotsKeepSessions(s, t);
    EndSessionReads(s, id);
  }

  lemma EndSessionReads(s: Sessions, id: nat)
    requires SessionsHoldSlots(s) && ReadsAreTenured(s) && id in s.live
    ensures ReadsAreTenured(EndSession(s, id))
  {
    hide ReadsItsOwn;
    var t := EndSession(s, id);
    forall i | i in t.live ensures ReadsItsOwn(t.live[i], InboxOf(t.signals, t.live[i].peer)) {
      assert ReadsItsOwn(s.live[i], InboxOf(s.signals, s.live[i].peer));
      assert s.live[i].peer != s.live[id].peer;
    }
  }

  lemma UpgradeQueueKeeps(s: Sessions, t: Sessions)
    requires SessionsInv(s)
    requires t.live == s.live && t.nextSession == s.nextSession
    requires t.signals.slots == s.signals.slots && t.signals.inboxes == s.signals.inboxes
    ensures SessionsInv(t)
  {
    hide SlotsHaveSessions, ReadsItsOwn;
    SlotsKeepSessions(s, t);
  }

  /** A peer's slot is held exactly while a session of it lives, and there is
      only the one; its inbox exists only then and stays within the cap. */
  lemma SlotIffOneSession(s: Sessions, peer: EndpointId)
    requires SessionsInv(s)
    ensures peer in s.signals.slots <==> exists id :: IsSessionOf(s, id, peer)
    ensures forall i, j :: IsSessionOf(s, i, peer) && IsSessionOf(s, j, peer) ==> i == j
    ensures peer in s.signals.inboxes ==> |s.signals.inboxes[peer]| <= 64 && exists id :: IsSessionOf(s, id, peer)
  {
    hide ReadsAreTenured;
    if peer in s.signals.slots {
      var id := SlotHolder(s, peer);
    }
  }

  /** The channel falls back to the relay it was signaled through exactly when
      its session is an answerer's or that relay is the home relay: an offerer's
      slot is released before its channel registers. */
  lemma FallbackIsTheSignalingRelay(s: Sessions, id: nat)
    requires SessionsInv(s) && id in s.live
    ensures ChannelFallback(s, id) == s.live[id].relay
      <==> s.live[id].role.Answerer? || s.live[id].relay == HOME_RELAY
    ensures s.live[id].role.Offerer? ==> ChannelFallback(s, id) == HOME_RELAY
  {
  }

  /** An inbound signal's session: the one holding the slot, or a new answerer
      through the relay it came by. Either way it is the only one. */
  lemma SignalFindsItsSession(s: Sessions, via: nat, source: EndpointId, payload: Payload) returns (id: nat)
    requires SessionsInv(s) && s.signals.enabled
    ensures
      var t := ReceiveSignal(s, via, source, payload, false);
      && IsSessionOf(t, id, source)
      && (forall i :: IsSessionOf(t, i, source) ==> i == id)
      && (source !in s.signals.slots ==> t.live[id] == Session(source, Answerer, via, [payload], []))
  {
    hide SlotsHaveSessions, InboxesUnderSlots, ReadsAreTenured, ReceiveSignal;
    ReceiveSignalKeeps(s, via, source, payload, false);
    if source in s.signals.slots {
      id := SlotHolder(s, source);
      SessionStays(s, id, via, source, payload);
    } else {
      NewAnswerer(s, via, source, payload);
      id := s.nextSession;
    }
  }

  lemma SlotHolder(s: Sessions, p: EndpointId) returns (id: nat)
    requires SlotsHaveSessions(s) && p in s.signals.slots
    ensures IsSessionOf(s, id, p)
  {
    id :| IsSessionOf(s, id, p);
  }

  lemma SessionStays(s: Sessions, id: nat, via: nat, source: EndpointId, payload: Payload)
    requires IsSessionOf(s, id, source) && source in s.signals.slots
    ensures IsSessionOf(ReceiveSignal(s, via, source, payload, false), id, source)
  {
  }

  lemma NewAnswerer(s: Sessions, via: nat, source: EndpointId, payload: Payload)
    requires SessionsInv(s) && s.signals.enabled && source !in s.signals.slots
    ensures
      var t := ReceiveSignal(s, via, source, payload, false);
      s.nextSession in t.live && t.live[s.nextSession] == Session(source, Answerer, via, [payload], [])
  {
    hide SlotsHaveSessions, ReadsAreTenured;
    assert source !in s.signals.inboxes;
    assert [] + [payload] == [payload];
  }

  /** A signal to an endpoint without WebRTC, or a closed one, is discarded; else it is
      last in its source's inbox unless 64 are unread there, and nothing else of any
      inbox or held slot changes. It spawns an answerer exactly when it finds no slot,
      and then holds one through the relay it came by. */
  lemma SignalsAreFiled(g: Signals, via: nat, source: EndpointId, payload: Payload, closed: bool)
    ensures
      var (h, spawn) := HandleSignal(g, via, source, payload, closed);
      if !g.enabled || closed then (h, spawn) == (g, false)
      else
        && (spawn <==> source !in g.slots) && (spawn ==> h.slots == g.slots[source := via]) && (!spawn ==> h.slots == g.slots)
        && InboxOf(h, source) == InboxOf(g, source) + (if |InboxOf(g, source)| < 64 then [payload] else [])
        && (forall p :: p != source ==> InboxOf(h, p) == InboxOf(g, p))
        && h.enabled == g.enabled && h.pendingUpgrades == g.pendingUpgrades
  {
  }

  /** In the sessions: the one session of the source, and no other, has the signal
      filed, unless its inbox is full. */
  lemma SignalsReachTheirSession(s: Sessions, via: nat, source: EndpointId, payload: Payload, id: nat)
    requires SessionsInv(s) && s.signals.enabled && id in s.live
    ensures
      var t := ReceiveSignal(s, via, source, payload, false);
      && id in t.live && t.live[id].read == s.live[id].read
      && t.live[id].filed == s.live[id].filed
           + (if s.live[id].peer == source && |InboxOf(s.signals, source)| < 64 then [payload] else [])
      && t.live[id].peer == s.live[id].peer && t.live[id].role == s.live[id].role && t.live[id].relay == s.live[id].relay
  {
    hide SlotsHaveSessions, InboxesUnderSlots, ReadsAreTenured;
  }
}

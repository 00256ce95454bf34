/** Connection entries, epochs, the accept queue and who owns what
    (the connection half of endpoint/src/endpoint_impl.rs). */
module Connections {
  import opened Types

  const ACCEPT_BACKLOG := 16

  type Handle = nat

  /** A handle names a slot; the epoch says which occupancy of it. */
  datatype Ref = Ref(handle: Handle, epoch: nat)

  /** `closing` is noq's own record that this side has closed the connection. */
  datatype ConnEntry = ConnEntry(
    epoch: nat,
    expectedPeer: Option<EndpointId>,
    peer: Option<EndpointId>,
    accepted: bool,
    connected: bool,
    error: Option<Error>,
    drained: bool,
    closing: bool)

  /** The connection fields of `State`. */
  datatype Conns = Conns(entries: map<Handle, ConnEntry>, acceptQueue: seq<Ref>, nextEpoch: nat)

  datatype LostReason = ApplicationClosed | LocallyClosed | IdleTimedOut | TransportLost

  // ----- the operations of `State` -----

  predicate IsCurrent(c: Conns, ref: Ref) {
    ref.handle in c.entries && c.entries[ref.handle].epoch == ref.epoch
  }

  /** `entry_for`: the entry, while it is still the connection the caller was minted for. */
  function EntryFor(c: Conns, ref: Ref): Option<ConnEntry> {
    if IsCurrent(c, ref) then Some(c.entries[ref.handle]) else None
  }

  /** A new entry in a slot, stamped with the next epoch. */
  function Insert(c: Conns, h: Handle, expected: Option<EndpointId>, accepted: bool): Conns {
    c.(entries := c.entries[h := ConnEntry(c.nextEpoch, expected, None, accepted, false, None, false, false)],
       nextEpoch := c.nextEpoch + 1)
  }

  predicate Counted(e: ConnEntry) {
    e.accepted && !e.connected && e.error == None && !e.drained
  }

  function Handshaking(c: Conns): set<Handle> {
    set h | h in c.entries && Counted(c.entries[h])
  }

  function AcceptBacklog(c: Conns): nat { |c.acceptQueue| + |Handshaking(c)| }

  /** `on_event` at `Connected`: surface the connection only if the handshake
      authenticated the peer it must be. */
  function OnConnected(c: Conns, h: Handle, tlsPeer: Option<EndpointId>): Conns
    requires h in c.entries
  {
    var e := c.entries[h];
    if tlsPeer.Some? && (e.expectedPeer == None || e.expectedPeer == tlsPeer) then
      c.(entries := c.entries[h := e.(peer := tlsPeer, connected := true)],
         acceptQueue := if e.accepted then c.acceptQueue + [Ref(h, e.epoch)] else c.acceptQueue)
    else
      c.(entries := c.entries[h := e.(error := Some(ConnectFailed), closing := true)])
  }

  function OnLost(c: Conns, h: Handle, reason: LostReason): Conns
    requires h in c.entries
  {
    var error := match reason
      case ApplicationClosed => Closed
      case LocallyClosed => Closed
      case IdleTimedOut => TimedOut
      case TransportLost => Other;
    c.(entries := c.entries[h := c.entries[h].(error := Some(error))])
  }

  function OnDrained(c: Conns, h: Handle): Conns
    requires h in c.entries
  {
    c.(entries := c.entries[h := c.entries[h].(drained := true)])
  }

  predicate Closable(e: ConnEntry) { e.error == None && !e.drained }

  /** Close through a resource or a dial guard: nothing if the slot has a new occupant. */
  function CloseRef(c: Conns, ref: Ref): Conns {
    if IsCurrent(c, ref) && Closable(c.entries[ref.handle]) then
      c.(entries := c.entries[ref.handle := c.entries[ref.handle].(closing := true)])
    else c
  }

  /** Nothing is left to flush: every connection has drained or failed. */
  predicate AllSettled(c: Conns) {
    forall h :: h in c.entries ==> c.entries[h].drained || c.entries[h].error.Some?
  }

  function CloseAll(c: Conns): Conns {
    c.(entries := map h | h in c.entries ::
         if Closable(c.entries[h]) then c.entries[h].(closing := true) else c.entries[h])
  }

  /** `accept`'s poll: the first queued connection whose slot it still holds;
      `skipped` entries before it are dropped. */
  function AcceptPoll(c: Conns): (Conns, Option<Ref>)
    decreases |c.acceptQueue|
  {
    if c.acceptQueue == [] then (c, None)
    else
      var rest := c.(acceptQueue := c.acceptQueue[1..]);
      if IsCurrent(c, c.acceptQueue[0]) then (rest, Some(c.acceptQueue[0])) else AcceptPoll(rest)
  }

  datatype DialPoll = DialFailed(error: Error) | DialDone | DialPending

  /** One poll of `connect`'s wait. */
  function PollDial(c: Conns, ref: Ref): DialPoll {
    match EntryFor(c, ref)
    case None => DialFailed(Closed)
    case Some(e) =>
      if e.error.Some? then DialFailed(if e.error == Some(Other) then ConnectFailed else e.error.value)
      else if e.connected then DialDone
      else DialPending
  }

  // ----- the machine: the entries and every owner -----

  datatype Popped = Popped(ref: Ref, delivered: bool)

  /** `guards` are the armed dial guards, `resources` the live connection
      resources. `connectedLog` lists the accepted connections as they
      connected; `popped` what acceptors took off the queue, in order. */
  datatype Owners = Owners(
    conns: Conns,
    guards: multiset<Ref>,
    resources: multiset<Ref>,
    connectedLog: seq<Ref>,
    popped: seq<Popped>)

  function NoConns(): Owners {
    Owners(Conns(map[], [], 0), multiset{}, multiset{}, [], [])
  }

  datatype ConnEvent =
    | Incoming(handle: Handle, source: Option<EndpointId>)
    | Dialed(handle: Handle, peer: EndpointId)
    | Connected(handle: Handle, tlsPeer: Option<EndpointId>)
    | Lost(handle: Handle, reason: LostReason)
    | Drained(handle: Handle)
    | DialPolled(ref: Ref)
    | DialCancelled(ref: Ref)
    | AcceptPolled
    | ResourceClosed(ref: Ref)
    | ResourceDropped(ref: Ref)
    | AllClosed

  /** noq's discipline: a handle is reused only after it drained; a connection
      connects at most once and never after it was lost. Owners act on what they own. */
  predicate Enabled(s: Owners, e: ConnEvent) {
    var c := s.conns;
    match e
    case Incoming(h, _) => h !in c.entries || c.entries[h].drained
    case Dialed(h, _) => h !in c.entries || c.entries[h].drained
    case Connected(h, _) => h in c.entries && !c.entries[h].connected && Closable(c.entries[h])
    case Lost(h, _) => h in c.entries
    case Drained(h) => h in c.entries
    case DialPolled(ref) => ref in s.guards
    case DialCancelled(ref) => ref in s.guards
    case AcceptPolled => true
    case ResourceClosed(ref) => ref in s.resources
    case ResourceDropped(ref) => ref in s.resources
    case AllClosed => true
  }

  /** An acceptor's poll, one queue entry at a time. */
  function AcceptStep(s: Owners): Owners
    decreases |s.conns.acceptQueue|
  {
    if s.conns.acceptQueue == [] then s
    else
      var ref := s.conns.acceptQueue[0];
      var s1 := s.(conns := s.conns.(acceptQueue := s.conns.acceptQueue[1..]));
      if IsCurrent(s.conns, ref) then
        s1.(resources := s.resources + multiset{ref}, popped := s.popped + [Popped(ref, true)])
      else AcceptStep(s1.(popped := s.popped + [Popped(ref, false)]))
  }

  /** A backlogged incoming attempt is refused: no entry is made. */
  function Admit(c: Conns, h: Handle, source: Option<EndpointId>): Conns {
    if AcceptBacklog(c) >= ACCEPT_BACKLOG then c else Insert(c, h, source, true)
  }

  function Apply(s: Owners, e: ConnEvent): Owners
    requires Enabled(s, e)
  {
    match e
    case Incoming(h, source) => s.(conns := Admit(s.conns, h, source))
    case Dialed(h, peer) =>
      s.(conns := Insert(s.conns, h, Some(peer), false), guards := s.guards + multiset{Ref(h, s.conns.nextEpoch)})
    case Connected(h, tlsPeer) =>
      var c := OnConnected(s.conns, h, tlsPeer);
      s.(conns := c,
         connectedLog := if |c.acceptQueue| > |s.conns.acceptQueue| then s.connectedLog + [Ref(h, c.entries[h].epoch)]
                         else s.connectedLog)
    case Lost(h, reason) => s.(conns := OnLost(s.conns, h, reason))
    case Drained(h) => s.(conns := OnDrained(s.conns, h))
    case DialPolled(ref) =>
      (match PollDial(s.conns, ref)
       case DialDone => s.(guards := s.guards - multiset{ref}, resources := s.resources + multiset{ref})
       case DialFailed(_) => s.(conns := CloseRef(s.conns, ref), guards := s.guards - multiset{ref})
       case DialPending => s)
    case DialCancelled(ref) => s.(conns := CloseRef(s.conns, ref), guards := s.guards - multiset{ref})
    case AcceptPolled => AcceptStep(s)
    case ResourceClosed(ref) => s.(conns := CloseRef(s.conns, ref))
    case ResourceDropped(ref) => s.(conns := CloseRef(s.conns, ref), resources := s.resources - multiset{ref})
    case AllClosed => s.(conns := CloseAll(s.conns))
  }

  // ----- what every step keeps -----

  /** Epochs come from the counter and are never reissued; a reference's slot
      exists, and its occupant's epoch only grows. */
  ghost predicate Stamped(c: Conns, ref: Ref) {
    ref.epoch < c.nextEpoch && ref.handle in c.entries && ref.epoch <= c.entries[ref.handle].epoch
  }

  ghost predicate EpochsAreFresh(s: Owners) {
    var c := s.conns;
    && (forall h :: h in c.entries ==> c.entries[h].epoch < c.nextEpoch)
    && (forall h, k :: h in c.entries && k in c.entries && c.entries[h].epoch == c.entries[k].epoch ==> h == k)
    && (forall ref :: ref in s.guards ==> Stamped(c, ref))
    && (forall ref :: ref in s.resources ==> Stamped(c, ref))
    && (forall ref :: ref in s.connectedLog ==> Stamped(c, ref))
  }

  /** The queue is the part of the connect log not yet popped, in order; a skipped
      entry's slot was reused; nothing connects twice. */
  ghost predicate AcceptOrder(s: Owners) {
    && |s.popped| <= |s.connectedLog|
    && (forall i :: 0 <= i < |s.popped| ==> s.popped[i].ref == s.connectedLog[i])
    && s.conns.acceptQueue == s.connectedLog[|s.popped|..]
    && (forall i, j :: 0 <= i < j < |s.connectedLog| ==> s.connectedLog[i] != s.connectedLog[j])
    && (forall p :: p in s.popped && !p.delivered ==> !IsCurrent(s.conns, p.ref))
    && (forall ref :: ref in s.connectedLog && IsCurrent(s.conns, ref) ==>
          s.conns.entries[ref.handle].connected && s.conns.entries[ref.handle].accepted)
  }

  /** The live owners of a connection: the accept queue, a dial guard, a resource. */
  function OwnerCount(s: Owners, ref: Ref): nat {
    multiset(s.conns.acceptQueue)[ref] + s.guards[ref] + s.resources[ref]
  }

  predicate InHandshake(e: ConnEntry) { e.accepted && !e.connected }

  /** Still open as far as this side knows: not failed, drained or locally closed. */
  predicate Live(e: ConnEntry) { e.error == None && !e.drained && !e.closing }

  /** No connection has two owners; an accepted one in its handshake has none
      yet; every other live one has exactly one. */
  ghost predicate OneOwner(s: Owners) {
    && (forall ref :: OwnerCount(s, ref) <= 1)
    && (forall h :: h in s.conns.entries ==> EntryOwned(s, h))
  }

  ghost predicate EntryOwned(s: Owners, h: Handle)
    requires h in s.conns.entries
  {
    var e := s.conns.entries[h];
    var n := OwnerCount(s, Ref(h, e.epoch));
    && (InHandshake(e) ==> n == 0)
    && (Live(e) && !InHandshake(e) ==> n == 1)
  }

  ghost predicate Backlogged(s: Owners) {
    AcceptBacklog(s.conns) <= ACCEPT_BACKLOG
  }

  ghost predicate OwnersInv(s: Owners) {
    EpochsAreFresh(s) && AcceptOrder(s) && OneOwner(s) && Backlogged(s)
  }

  // ----- steps that only fail, drain or close entries, or give owners up -----

  /** Same slots, epochs and handshake states; entries can only get worse. */
  ghost predicate EntriesOnlyEnd(c: Conns, d: Conns) {
    && d.entries.Keys == c.entries.Keys && d.nextEpoch == c.nextEpoch && d.acceptQueue == c.acceptQueue
    && forall h :: h in c.entries ==> EntryOnlyEnds(c.entries[h], d.entries[h])
  }

  predicate EntryOnlyEnds(e: ConnEntry, f: ConnEntry) {
    && f.epoch == e.epoch && f.accepted == e.accepted && f.connected == e.connected
    && (Live(f) ==> Live(e)) && (Counted(f) ==> Counted(e))
  }

  predicate SameStamps(c: Conns, d: Conns) {
    && d.entries.Keys == c.entries.Keys && d.nextEpoch == c.nextEpoch
    && forall h :: h in c.entries ==> d.entries[h].epoch == c.entries[h].epoch
  }

  lemma SameStampsKeepEpochs(s: Owners, t: Owners)
    requires EpochsAreFresh(s) && SameStamps(s.conns, t.conns)
    requires forall ref :: ref in t.guards ==> Stamped(s.conns, ref)
    requires forall ref :: ref in t.resources ==> Stamped(s.conns, ref)
    requires forall ref :: ref in t.connectedLog ==> Stamped(s.conns, ref)
    ensures EpochsAreFresh(t)
  {
  }

  lemma EndingKeepsOrder(s: Owners, t: Owners)
    requires AcceptOrder(s) && EntriesOnlyEnd(s.conns, t.conns)
    requires t.connectedLog == s.connectedLog && t.popped == s.popped
    ensures AcceptOrder(t)
  {
    hide Live, Counted;
  }

  lemma EndingKeepsOwners(s: Owners, t: Owners)
    requires OneOwner(s) && EntriesOnlyEnd(s.conns, t.conns)
    requires forall ref :: OwnerCount(t, ref) <= OwnerCount(s, ref)
    requires forall h :: h in t.conns.entries && Live(t.conns.entries[h]) ==>
      var ref := Ref(h, t.conns.entries[h].epoch); OwnerCount(t, ref) == OwnerCount(s, ref)
    ensures OneOwner(t)
  {
    hide OwnerCount, Live, Counted;
    forall h | h in t.conns.entries ensures EntryOwned(t, h) {
      assert EntryOwned(s, h) && EntryOnlyEnds(s.conns.entries[h], t.conns.entries[h]);
    }
  }

  lemma EndingKeepsBacklog(s: Owners, t: Owners)
    requires Backlogged(s) && EntriesOnlyEnd(s.conns, t.conns)
    ensures Backlogged(t)
  {
    hide Live, Counted;
    assert Handshaking(t.conns) <= Handshaking(s.conns);
    SubsetSize(Handshaking(t.conns), Handshaking(s.conns));
  }

  lemma {:induction false} SubsetSize(a: set<Handle>, b: set<Handle>)
    requires a <= b
    ensures |a| <= |b|
    decreases |a|
  {
    if a != {} {
      var x :| x in a;
      SubsetSize(a - {x}, b - {x});
    }
  }

  lemma CloseRefOnlyEnds(c: Conns, ref: Ref)
    ensures EntriesOnlyEnd(c, CloseRef(c, ref))
    ensures var d := CloseRef(c, ref); IsCurrent(c, ref) ==> !Live(d.entries[ref.handle])
  {
  }

  /** An owner that lets go has closed its connection, if that is still in its slot. */
  lemma ReleaseKeeps(s: Owners, ref: Ref, t: Owners)
    requires OwnersInv(s)
    requires t.conns == CloseRef(s.conns, ref) && t.connectedLog == s.connectedLog && t.popped == s.popped
    requires t.guards == s.guards || t.guards == s.guards - multiset{ref}
    requires t.resources == s.resources || t.resources == s.resources - multiset{ref}
    ensures OwnersInv(t)
  {
    hide AcceptOrder, OneOwner, Backlogged;
    CloseRefOnlyEnds(s.conns, ref);
    hide CloseRef;
    SameStampsKeepEpochs(s, t);
    hide EpochsAreFresh;
    EndingKeepsOrder(s, t);
    EndingKeepsBacklog(s, t);
    ReleaseOwners(s, ref, t);
  }

  lemma ReleaseOwners(s: Owners, ref: Ref, t: Owners)
    requires OneOwner(s) && EntriesOnlyEnd(s.conns, t.conns)
    requires IsCurrent(s.conns, ref) ==> !Live(t.conns.entries[ref.handle])
    requires t.guards == s.guards || t.guards == s.guards - multiset{ref}
    requires t.resources == s.resources || t.resources == s.resources - multiset{ref}
    ensures OneOwner(t)
  {
    assert forall r :: OwnerCount(t, r) <= OwnerCount(s, r) && (r != ref ==> OwnerCount(t, r) == OwnerCount(s, r));
    hide OwnerCount, OneOwner, Live, Counted;
    EndingKeepsOwners(s, t);
  }

  lemma EndKeeps(s: Owners, t: Owners)
    requires OwnersInv(s) && EntriesOnlyEnd(s.conns, t.conns)
    requires t.guards == s.guards && t.resources == s.resources
    requires t.connectedLog == s.connectedLog && t.popped == s.popped
    ensures OwnersInv(t)
  {
    hide AcceptOrder, OneOwner, Backlogged;
    SameStampsKeepEpochs(s, t);
    hide EpochsAreFresh;
    EndingKeepsOrder(s, t);
    EndingKeepsBacklog(s, t);
    EndingKeepsOwners(s, t);
  }

  /** A dial's guard hands its connection to a resource. */
  lemma HandOverKeeps(s: Owners, ref: Ref)
    requires OwnersInv(s) && ref in s.guards
    ensures OwnersInv(s.(guards := s.guards - multiset{ref}, resources := s.resources + multiset{ref}))
  {
    hide AcceptOrder, OneOwner, Backlogged;
    var t := s.(guards := s.guards - multiset{ref}, resources := s.resources + multiset{ref});
    SameStampsKeepEpochs(s, t);
    hide EpochsAreFresh;
    EndingKeepsOrder(s, t);
    EndingKeepsBacklog(s, t);
    EndingKeepsOwners(s, t);
  }

  // ----- a new occupant for a slot -----

  lemma UnstampedIsUnowned(s: Owners, ref: Ref)
    requires EpochsAreFresh(s) && AcceptOrder(s) && ref.epoch >= s.conns.nextEpoch
    ensures OwnerCount(s, ref) == 0 && ref !in s.connectedLog
  {
    assert forall r :: r in s.conns.acceptQueue ==> r in s.connectedLog;
  }

  lemma InsertKeepsEpochs(s: Owners, h: Handle, expected: Option<EndpointId>, accepted: bool, t: Owners)
    requires EpochsAreFresh(s)
    requires t.conns == Insert(s.conns, h, expected, accepted) && t.connectedLog == s.connectedLog
    requires t.resources == s.resources
    requires t.guards == s.guards || t.guards == s.guards + multiset{Ref(h, s.conns.nextEpoch)}
    ensures EpochsAreFresh(t)
  {
    assert forall ref :: Stamped(s.conns, ref) ==> Stamped(t.conns, ref);
    assert Stamped(t.conns, Ref(h, s.conns.nextEpoch));
    hide Stamped;
  }

  lemma InsertKeepsOrder(s: Owners, h: Handle, expected: Option<EndpointId>, accepted: bool, t: Owners)
    requires EpochsAreFresh(s) && AcceptOrder(s)
    requires t.conns == Insert(s.conns, h, expected, accepted) && t.connectedLog == s.connectedLog && t.popped == s.popped
    ensures AcceptOrder(t)
  {
    forall p | p in t.popped && !p.delivered ensures !IsCurrent(t.conns, p.ref) {
      assert exists i :: 0 <= i < |s.popped| && s.popped[i] == p;
      assert p.ref in s.connectedLog;
    }
  }

  lemma InsertKeepsOwners(s: Owners, h: Handle, expected: Option<EndpointId>, accepted: bool, t: Owners)
    requires EpochsAreFresh(s) && AcceptOrder(s) && OneOwner(s)
    requires t.conns == Insert(s.conns, h, expected, accepted) && t.resources == s.resources
    requires t.guards == if accepted then s.guards else s.guards + multiset{Ref(h, s.conns.nextEpoch)}
    ensures OneOwner(t)
  {
    hide EpochsAreFresh, AcceptOrder;
    var ref0 := Ref(h, s.conns.nextEpoch);
    UnstampedIsUnowned(s, ref0);
    assert forall ref :: OwnerCount(t, ref) == OwnerCount(s, ref) + if ref == ref0 && !accepted then 1 else 0;
    hide OwnerCount;
    forall k | k in t.conns.entries ensures EntryOwned(t, k) {
      if k != h {
        assert EntryOwned(s, k);
      }
    }
  }

  lemma InsertKeepsBacklog(s: Owners, h: Handle, expected: Option<EndpointId>, accepted: bool, t: Owners)
    requires accepted ==> AcceptBacklog(s.conns) < ACCEPT_BACKLOG
    requires Backlogged(s) && t.conns == Insert(s.conns, h, expected, accepted)
    ensures Backlogged(t)
  {
    var before, after := Handshaking(s.conns), Handshaking(t.conns);
    if accepted {
      assert after <= before + {h};
      SubsetSize(after, before + {h});
    } else {
      assert after <= before;
      SubsetSize(after, before);
    }
  }

  // ----- the handshake completes -----

  lemma ConnectedKeeps(s: Owners, h: Handle, tlsPeer: Option<EndpointId>)
    requires OwnersInv(s) && Enabled(s, Connected(h, tlsPeer))
    ensures OwnersInv(Apply(s, Connected(h, tlsPeer)))
  {
    var t, e := Apply(s, Connected(h, tlsPeer)), s.conns.entries[h];
    var ref := Ref(h, e.epoch);
    if tlsPeer.Some? && (e.expectedPeer == None || e.expectedPeer == tlsPeer) {
      if e.accepted {
        QueuedKeeps(s, h, tlsPeer, t);
      } else {
        DialConnectedKeeps(s, h, tlsPeer, t);
      }
    } else {
      assert EntriesOnlyEnd(s.conns, t.conns);
      hide OwnersInv;
      EndKeeps(s, t);
    }
  }

  lemma DialConnectedKeeps(s: Owners, h: Handle, tlsPeer: Option<EndpointId>, t: Owners)
    requires OwnersInv(s) && h in s.conns.entries && !s.conns.entries[h].accepted
    requires t == s.(conns := s.conns.(entries := s.conns.entries[h := s.conns.entries[h].(peer := tlsPeer, connected := true)]))
    ensures OwnersInv(t)
  {
    hide AcceptOrder, OneOwner, EpochsAreFresh;
    assert Handshaking(t.conns) == Handshaking(s.conns);
    DialConnectedOwners(s, h, tlsPeer, t);
    assert EpochsAreFresh(t) by {
      RestampKeeps(s, t);
    }
    assert AcceptOrder(t) by {
      DialConnectedOrder(s, h, tlsPeer, t);
    }
  }

  lemma RestampKeeps(s: Owners, t: Owners)
    requires EpochsAreFresh(s) && SameStamps(s.conns, t.conns)
    requires t.guards == s.guards && t.resources == s.resources && t.connectedLog == s.connectedLog
    ensures EpochsAreFresh(t)
  {
    SameStampsKeepEpochs(s, t);
  }

  lemma DialConnectedOwners(s: Owners, h: Handle, tlsPeer: Option<EndpointId>, t: Owners)
    requires OneOwner(s) && h in s.conns.entries && !s.conns.entries[h].accepted
    requires t == s.(conns := s.conns.(entries := s.conns.entries[h := s.conns.entries[h].(peer := tlsPeer, connected := true)]))
    ensures OneOwner(t)
  {
    assert forall ref :: OwnerCount(t, ref) == OwnerCount(s, ref);
    hide OwnerCount;
    forall k | k in t.conns.entries ensures EntryOwned(t, k) {
      assert EntryOwned(s, k);
    }
  }

  lemma DialConnectedOrder(s: Owners, h: Handle, tlsPeer: Option<EndpointId>, t: Owners)
    requires AcceptOrder(s) && h in s.conns.entries && !s.conns.entries[h].accepted
    requires t == s.(conns := s.conns.(entries := s.conns.entries[h := s.conns.entries[h].(peer := tlsPeer, connected := true)]))
    ensures AcceptOrder(t)
  {
  }

  /** The handshake-to-queue move: the connection changes owner, the backlog count stays. */
  lemma QueuedKeeps(s: Owners, h: Handle, tlsPeer: Option<EndpointId>, t: Owners)
    requires OwnersInv(s) && h in s.conns.entries && Counted(s.conns.entries[h])
    requires
      var ref := Ref(h, s.conns.entries[h].epoch);
      t == s.(conns := s.conns.(entries := s.conns.entries[h := s.conns.entries[h].(peer := tlsPeer, connected := true)],
                                acceptQueue := s.conns.acceptQueue + [ref]),
              connectedLog := s.connectedLog + [ref])
    ensures OwnersInv(t)
    ensures AcceptBacklog(t.conns) == AcceptBacklog(s.conns)
  {
    hide AcceptOrder, OneOwner, EpochsAreFresh;
    assert Handshaking(t.conns) == Handshaking(s.conns) - {h};
    QueuedOwners(s, h, tlsPeer, t);
    QueuedOrder(s, h, tlsPeer, t);
    QueuedEpochs(s, h, tlsPeer, t);
  }

  lemma QueuedEpochs(s: Owners, h: Handle, tlsPeer: Option<EndpointId>, t: Owners)
    requires EpochsAreFresh(s) && h in s.conns.entries
    requires
      var ref := Ref(h, s.conns.entries[h].epoch);
      && t.conns == s.conns.(entries := s.conns.entries[h := s.conns.entries[h].(peer := tlsPeer, connected := true)],
                             acceptQueue := s.conns.acceptQueue + [ref])
      && t.connectedLog == s.connectedLog + [ref] && t.guards == s.guards && t.resources == s.resources
    ensures EpochsAreFresh(t)
  {
    SameStampsKeepEpochs(s, t);
  }

  lemma QueuedOwners(s: Owners, h: Handle, tlsPeer: Option<EndpointId>, t: Owners)
    requires OneOwner(s) && h in s.conns.entries && InHandshake(s.conns.entries[h])
    requires t.guards == s.guards && t.resources == s.resources
    requires t.conns == s.conns.(entries := s.conns.entries[h := s.conns.entries[h].(peer := tlsPeer, connected := true)],
                                 acceptQueue := s.conns.acceptQueue + [Ref(h, s.conns.entries[h].epoch)])
    ensures OneOwner(t)
  {
    var ref := Ref(h, s.conns.entries[h].epoch);
    assert forall r :: OwnerCount(t, r) == OwnerCount(s, r) + if r == ref then 1 else 0;
    hide OwnerCount;
    assert EntryOwned(s, h);
    forall k | k in t.conns.entries ensures EntryOwned(t, k) {
      assert EntryOwned(s, k);
    }
  }

  lemma QueuedOrder(s: Owners, h: Handle, tlsPeer: Option<EndpointId>, t: Owners)
    requires AcceptOrder(s) && h in s.conns.entries && InHandshake(s.conns.entries[h])
    requires
      var ref := Ref(h, s.conns.entries[h].epoch);
      && t.conns == s.conns.(entries := s.conns.entries[h := s.conns.entries[h].(peer := tlsPeer, connected := true)],
                             acceptQueue := s.conns.acceptQueue + [ref])
      && t.connectedLog == s.connectedLog + [ref] && t.popped == s.popped
    ensures AcceptOrder(t)
  {
    assert Ref(h, s.conns.entries[h].epoch) !in s.connectedLog;
  }

  // ----- acceptors -----

  lemma {:induction false} AcceptKeeps(s: Owners)
    requires OwnersInv(s)
    ensures OwnersInv(AcceptStep(s))
    decreases |s.conns.acceptQueue|
  {
    if s.conns.acceptQueue != [] {
      var ref := s.conns.acceptQueue[0];
      var popped := s.(conns := s.conns.(acceptQueue := s.conns.acceptQueue[1..]));
      if IsCurrent(s.conns, ref) {
        PopKeeps(s, true);
      } else {
        PopKeeps(s, false);
        AcceptKeeps(popped.(popped := s.popped + [Popped(ref, false)]));
      }
    }
  }

  lemma PopKeeps(s: Owners, deliver: bool)
    requires OwnersInv(s) && s.conns.acceptQueue != [] && deliver == IsCurrent(s.conns, s.conns.acceptQueue[0])
    ensures
      var ref := s.conns.acceptQueue[0];
      OwnersInv(s.(conns := s.conns.(acceptQueue := s.conns.acceptQueue[1..]),
                   resources := if deliver then s.resources + multiset{ref} else s.resources,
                   popped := s.popped + [Popped(ref, deliver)]))
  {
    hide AcceptOrder, OneOwner, EpochsAreFresh;
    var ref := s.conns.acceptQueue[0];
    var t := s.(conns := s.conns.(acceptQueue := s.conns.acceptQueue[1..]),
                resources := if deliver then s.resources + multiset{ref} else s.resources,
                popped := s.popped + [Popped(ref, deliver)]);
    PopOwners(s, deliver, t);
    PopOrder(s, deliver, t);
    PopEpochs(s, deliver, t);
    assert Handshaking(t.conns) == Handshaking(s.conns);
  }

  lemma PopEpochs(s: Owners, deliver: bool, t: Owners)
    requires EpochsAreFresh(s) && AcceptOrder(s) && s.conns.acceptQueue != []
    requires SameStamps(s.conns, t.conns) && t.guards == s.guards && t.connectedLog == s.connectedLog
    requires t.resources == if deliver then s.resources + multiset{s.conns.acceptQueue[0]} else s.resources
    ensures EpochsAreFresh(t)
  {
    assert s.conns.acceptQueue[0] == s.connectedLog[|s.popped|];
    SameStampsKeepEpochs(s, t);
  }

  lemma PopOrder(s: Owners, deliver: bool, t: Owners)
    requires AcceptOrder(s) && s.conns.acceptQueue != [] && deliver == IsCurrent(s.conns, s.conns.acceptQueue[0])
    requires t.conns == s.conns.(acceptQueue := s.conns.acceptQueue[1..]) && t.connectedLog == s.connectedLog
    requires t.popped == s.popped + [Popped(s.conns.acceptQueue[0], deliver)]
    ensures AcceptOrder(t)
  {
    assert s.conns.acceptQueue[0] == s.connectedLog[|s.popped|];
  }

  lemma PopOwners(s: Owners, deliver: bool, t: Owners)
    requires OneOwner(s) && s.conns.acceptQueue != [] && deliver == IsCurrent(s.conns, s.conns.acceptQueue[0])
    requires t.conns == s.conns.(acceptQueue := s.conns.acceptQueue[1..]) && t.guards == s.guards
    requires t.resources == if deliver then s.resources + multiset{s.conns.acceptQueue[0]} else s.resources
    ensures OneOwner(t)
  {
    var ref := s.conns.acceptQueue[0];
    assert s.conns.acceptQueue == [ref] + t.conns.acceptQueue;
    assert forall r :: OwnerCount(t, r) == OwnerCount(s, r) - if r == ref && !deliver then 1 else 0;
    hide OwnerCount;
    forall k | k in t.conns.entries ensures EntryOwned(t, k) {
      assert EntryOwned(s, k);
    }
  }

  // ----- every run -----

  lemma NoConnsIsGood()
    ensures OwnersInv(NoConns())
  {
    assert Handshaking(NoConns().conns) == {};
  }

  lemma IncomingKeeps(s: Owners, h: Handle, source: Option<EndpointId>)
    requires OwnersInv(s)
    ensures OwnersInv(s.(conns := Admit(s.conns, h, source)))
    ensures AcceptBacklog(s.conns) >= ACCEPT_BACKLOG ==> Admit(s.conns, h, source) == s.conns
  {
    hide EpochsAreFresh, AcceptOrder, OneOwner, Backlogged;
    if AcceptBacklog(s.conns) < ACCEPT_BACKLOG {
      var t := s.(conns := Insert(s.conns, h, source, true));
      InsertKeepsEpochs(s, h, source, true, t);
      InsertKeepsOrder(s, h, source, true, t);
      InsertKeepsOwners(s, h, source, true, t);
      InsertKeepsBacklog(s, h, source, true, t);
    }
  }

  lemma DialedKeeps(s: Owners, h: Handle, peer: EndpointId)
    requires OwnersInv(s)
    ensures OwnersInv(s.(conns := Insert(s.conns, h, Some(peer), false),
                         guards := s.guards + multiset{Ref(h, s.conns.nextEpoch)}))
  {
    hide EpochsAreFresh, AcceptOrder, OneOwner, Backlogged;
    var t := s.(conns := Insert(s.conns, h, Some(peer), false), guards := s.guards + multiset{Ref(h, s.conns.nextEpoch)});
    InsertKeepsEpochs(s, h, Some(peer), false, t);
    InsertKeepsOrder(s, h, Some(peer), false, t);
    InsertKeepsOwners(s, h, Some(peer), false, t);
    InsertKeepsBacklog(s, h, Some(peer), false, t);
  }

  /** Whatever a poll of a dial finds: success hands the connection on, failure ends the guard. */
  lemma DialPollKeeps(s: Owners, ref: Ref)
    requires OwnersInv(s) && ref in s.guards
    ensures OwnersInv(Apply(s, DialPolled(ref)))
  {
    hide OwnersInv;
    match PollDial(s.conns, ref)
    case DialDone => HandOverKeeps(s, ref);
    case DialFailed(_) => ReleaseKeeps(s, ref, Apply(s, DialPolled(ref)));
    case DialPending =>
  }

  lemma StepKeepsInv(s: Owners, e: ConnEvent)
    requires OwnersInv(s) && Enabled(s, e)
    ensures OwnersInv(Apply(s, e))
  {
    hide OwnersInv;
    var t := Apply(s, e);
    match e
    case Incoming(h, source) => IncomingKeeps(s, h, source);
    case Dialed(h, peer) => DialedKeeps(s, h, peer);
    case Connected(h, tlsPeer) => ConnectedKeeps(s, h, tlsPeer);
    case Lost(h, reason) => EndKeeps(s, t);
    case Drained(h) => EndKeeps(s, t);
    case DialPolled(ref) => DialPollKeeps(s, ref);
    case DialCancelled(ref) => ReleaseKeeps(s, ref, t);
    case AcceptPolled => AcceptKeeps(s);
    case ResourceClosed(ref) => ReleaseKeeps(s, ref, t);
    case ResourceDropped(ref) => ReleaseKeeps(s, ref, t);
    case AllClosed => EndKeeps(s, t);
  }

  ghost predicate IsRun(s: Owners, es: seq<ConnEvent>)
    decreases |es|
  {
    es == [] || (Enabled(s, es[0]) && IsRun(Apply(s, es[0]), es[1..]))
  }

  ghost function After(s: Owners, es: seq<ConnEvent>): Owners
    requires IsRun(s, es)
    decreases |es|
  {
    if es == [] then s else After(Apply(s, es[0]), es[1..])
  }

  lemma {:induction false} RunKeepsInv(s: Owners, es: seq<ConnEvent>)
    requires OwnersInv(s) && IsRun(s, es)
    ensures OwnersInv(After(s, es))
    decreases |es|
  {
    hide OwnersInv, Apply, Enabled;
    if es != [] {
      StepKeepsInv(s, es[0]);
      RunKeepsInv(Apply(s, es[0]), es[1..]);
    }
  }

  // ----- what resources and acceptors can rely on -----

  /** Acting through a reference whose slot was reused changes no entry. */
  lemma StaleReferencesDoNothing(s: Owners, ref: Ref)
    requires !IsCurrent(s.conns, ref)
    ensures CloseRef(s.conns, ref) == s.conns
    ensures EntryFor(s.conns, ref) == None && PollDial(s.conns, ref) == DialFailed(Closed)
    ensures ref in s.resources ==>
      Apply(s, ResourceDropped(ref)).conns == s.conns && Apply(s, ResourceClosed(ref)) == s
    ensures ref in s.guards ==> Apply(s, DialCancelled(ref)).conns == s.conns
  {
  }

  lemma StampsOnlyGrow(s: Owners, e: ConnEvent, ref: Ref)
    requires OwnersInv(s) && Enabled(s, e) && Stamped(s.conns, ref) && !IsCurrent(s.conns, ref)
    ensures Stamped(Apply(s, e).conns, ref) && !IsCurrent(Apply(s, e).conns, ref)
  {
    hide AcceptOrder, OneOwner, Backlogged, Enabled;
    match e {
      case Incoming(h, source) =>
      case Dialed(h, peer) =>
      case _ =>
        RestampedAlike(s, e);
        hide Apply;
    }
  }

  lemma RestampedAlike(s: Owners, e: ConnEvent)
    requires Enabled(s, e) && !e.Incoming? && !e.Dialed?
    ensures SameStamps(s.conns, Apply(s, e).conns)
  {
    match e
    case AcceptPolled =>
      AcceptTouchesNoEntry(s);
      hide AcceptStep;
    case Connected(h, tlsPeer) =>
    case DialPolled(ref) =>
      CloseRefOnlyEnds(s.conns, ref);
      hide CloseRef, PollDial, Live, Counted;
    case DialCancelled(ref) =>
      CloseRefOnlyEnds(s.conns, ref);
      hide CloseRef, Live, Counted;
    case ResourceClosed(ref) =>
      CloseRefOnlyEnds(s.conns, ref);
      hide CloseRef, Live, Counted;
    case ResourceDropped(ref) =>
      CloseRefOnlyEnds(s.conns, ref);
      hide CloseRef, Live, Counted;
    case _ =>
  }

  lemma {:induction false} AcceptTouchesNoEntry(s: Owners)
    ensures AcceptStep(s).conns.entries == s.conns.entries && AcceptStep(s).conns.nextEpoch == s.conns.nextEpoch
    decreases |s.conns.acceptQueue|
  {
    if s.conns.acceptQueue != [] && !IsCurrent(s.conns, s.conns.acceptQueue[0]) {
      AcceptTouchesNoEntry(s.(conns := s.conns.(acceptQueue := s.conns.acceptQueue[1..]),
                              popped := s.popped + [Popped(s.conns.acceptQueue[0], false)]));
    }
  }

  /** The machine's acceptor step is `accept`'s poll: what it yields becomes a resource. */
  lemma {:induction false} AcceptStepIsPoll(s: Owners)
    ensures AcceptStep(s).conns == AcceptPoll(s.conns).0
    ensures AcceptStep(s).resources == match AcceptPoll(s.conns).1
                                       case Some(ref) => s.resources + multiset{ref}
                                       case None => s.resources
    decreases |s.conns.acceptQueue|
  {
    if s.conns.acceptQueue != [] && !IsCurrent(s.conns, s.conns.acceptQueue[0]) {
      AcceptStepIsPoll(s.(conns := s.conns.(acceptQueue := s.conns.acceptQueue[1..]),
                          popped := s.popped + [Popped(s.conns.acceptQueue[0], false)]));
    }
  }

  /** Once stale, stale for the rest of every run: epochs are never reissued. */
  lemma {:induction false} StaleForever(s: Owners, es: seq<ConnEvent>, ref: Ref)
    requires OwnersInv(s) && IsRun(s, es)
    requires Stamped(s.conns, ref) && !IsCurrent(s.conns, ref)
    ensures !IsCurrent(After(s, es).conns, ref)
    decreases |es|
  {
    hide OwnersInv, Apply, Enabled, Stamped;
    if es != [] {
      StepKeepsInv(s, es[0]);
      StampsOnlyGrow(s, es[0], ref);
      StaleForever(Apply(s, es[0]), es[1..], ref);
    }
  }

  /** Acceptors take connections in the order they connected, each at most
      once, passing over only those whose slot was reused. */
  lemma AcceptedOnceInOrder(s: Owners, es: seq<ConnEvent>)
    requires IsRun(NoConns(), es) && s == After(NoConns(), es)
    ensures forall i :: 0 <= i < |s.popped| ==> i < |s.connectedLog| && s.popped[i].ref == s.connectedLog[i]
    ensures forall i, j :: 0 <= i < j < |s.popped| ==> s.popped[i].ref != s.popped[j].ref
    ensures forall i :: 0 <= i < |s.popped| && !s.popped[i].delivered ==> !IsCurrent(s.conns, s.popped[i].ref)
    ensures |s.popped| <= |s.connectedLog| && s.conns.acceptQueue == s.connectedLog[|s.popped|..]
  {
    hide OwnersInv;
    NoConnsIsGood();
    RunKeepsInv(NoConns(), es);
    assert AcceptOrder(s) by {
      InvParts(s);
    }
  }

  lemma InvParts(s: Owners)
    requires OwnersInv(s)
    ensures AcceptOrder(s) && OneOwner(s) && Backlogged(s) && EpochsAreFresh(s)
  {
    hide AcceptOrder, OneOwner, Backlogged, EpochsAreFresh;
  }

  /** However a run goes — failed, cancelled and finished dials, drops, slot
      reuse — a live connection has one owner or is an accepted one still in
      its handshake, and the unclaimed accepted ones stay within the backlog. */
  lemma EveryLiveConnectionIsOwned(es: seq<ConnEvent>, h: Handle)
    requires IsRun(NoConns(), es)
    ensures
      var s := After(NoConns(), es);
      && AcceptBacklog(s.conns) <= ACCEPT_BACKLOG
      && (h in s.conns.entries && Live(s.conns.entries[h]) ==>
            OwnerCount(s, Ref(h, s.conns.entries[h].epoch)) == if InHandshake(s.conns.entries[h]) then 0 else 1)
  {
    hide OwnersInv, Live, InHandshake;
    NoConnsIsGood();
    RunKeepsInv(NoConns(), es);
    var s := After(NoConns(), es);
    InvParts(s);
    if h in s.conns.entries {
      assert EntryOwned(s, h);
    }
  }

  // ----- closing the endpoint -----

  ghost predicate NoneLive(c: Conns) {
    forall h :: h in c.entries ==> !Live(c.entries[h])
  }

  /** The endpoint's close closes exactly the connections that have neither failed
      nor drained, and changes nothing else of any. */
  lemma CloseReachesAll(s: Owners)
    ensures
      var t := Apply(s, AllClosed);
      && NoneLive(t.conns) && t.conns.entries.Keys == s.conns.entries.Keys
      && t == s.(conns := s.conns.(entries := t.conns.entries))
      && forall h :: h in s.conns.entries ==>
           var e, f := s.conns.entries[h], t.conns.entries[h];
           if e.error.Some? || e.drained then f == e else f.closing && f == e.(closing := f.closing)
  {
  }

  /** Only a newcomer is live where none was. */
  lemma NothingComesAlive(s: Owners, e: ConnEvent)
    requires Enabled(s, e) && !e.Incoming? && !e.Dialed? && NoneLive(s.conns)
    ensures NoneLive(Apply(s, e).conns)
  {
    if e.AcceptPolled? {
      AcceptTouchesNoEntry(s);
      hide AcceptStep;
    }
  }

  // ----- authentication -----

  predicate AuthenticEntry(e: ConnEntry) {
    e.connected ==> e.peer.Some? && (e.expectedPeer == None || e.expectedPeer == e.peer)
  }

  /** A connected entry's identity is the handshake's, and the expected one where
      one was known; a resource's connection, while in its slot, is connected. */
  ghost predicate Authentic(s: Owners) {
    && (forall h :: h in s.conns.entries ==> AuthenticEntry(s.conns.entries[h]))
    && (forall ref :: ref in s.resources && IsCurrent(s.conns, ref) ==> s.conns.entries[ref.handle].connected)
  }

  /** Entries keep their slots, identities and progress. */
  ghost predicate SameIdentities(c: Conns, d: Conns) {
    && d.entries.Keys == c.entries.Keys
    && forall h :: h in c.entries ==> SameIdentity(c.entries[h], d.entries[h])
  }

  predicate SameIdentity(e: ConnEntry, f: ConnEntry) {
    && f.epoch == e.epoch && f.expectedPeer == e.expectedPeer
    && (e.connected ==> f.connected) && (f.connected ==> e.connected && f.peer == e.peer)
  }

  lemma SameIdentitiesKeep(s: Owners, t: Owners)
    requires Authentic(s) && SameIdentities(s.conns, t.conns)
    requires forall ref :: ref in t.resources && IsCurrent(s.conns, ref) ==> s.conns.entries[ref.handle].connected
    ensures Authentic(t)
  {
  }

  lemma CloseRefKeepsAuthentic(s: Owners, ref: Ref, t: Owners)
    requires Authentic(s) && t.conns == CloseRef(s.conns, ref)
    requires t.resources == s.resources || t.resources == s.resources - multiset{ref}
    ensures Authentic(t)
  {
    SameIdentitiesKeep(s, t);
  }

  lemma EndedKeepsAuthentic(s: Owners, e: ConnEvent)
    requires Authentic(s) && Enabled(s, e) && (e.Lost? || e.Drained? || e.AllClosed?)
    ensures Authentic(Apply(s, e))
  {
    SameIdentitiesKeep(s, Apply(s, e));
  }

  lemma DialPollKeepsAuthentic(s: Owners, ref: Ref)
    requires Authentic(s) && ref in s.guards
    ensures Authentic(Apply(s, DialPolled(ref)))
  {
    var t := Apply(s, DialPolled(ref));
    if PollDial(s.conns, ref).DialFailed? {
      CloseRefKeepsAuthentic(s, ref, t);
    } else {
      SameIdentitiesKeep(s, t);
    }
  }

  lemma InsertKeepsAuthentic(s: Owners, h: Handle, expected: Option<EndpointId>, accepted: bool, t: Owners)
    requires Authentic(s) && EpochsAreFresh(s)
    requires t.conns == Insert(s.conns, h, expected, accepted) && t.resources == s.resources
    ensures Authentic(t)
  {
  }

  lemma ConnectedKeepsAuthentic(s: Owners, h: Handle, tlsPeer: Option<EndpointId>, t: Owners)
    requires Authentic(s) && Enabled(s, Connected(h, tlsPeer))
    requires t.conns == OnConnected(s.conns, h, tlsPeer) && t.resources == s.resources
    ensures Authentic(t)
  {
  }

  lemma {:induction false} AcceptKeepsAuthentic(s: Owners)
    requires Authentic(s) && OwnersInv(s)
    ensures Authentic(AcceptStep(s))
    decreases |s.conns.acceptQueue|
  {
    if s.conns.acceptQueue != [] {
      var ref := s.conns.acceptQueue[0];
      if IsCurrent(s.conns, ref) {
        assert ref in s.connectedLog;
      } else {
        PopKeeps(s, false);
        AcceptKeepsAuthentic(s.(conns := s.conns.(acceptQueue := s.conns.acceptQueue[1..]),
                                popped := s.popped + [Popped(ref, false)]));
      }
    }
  }

  lemma StepKeepsAuthentic(s: Owners, e: ConnEvent)
    requires OwnersInv(s) && Authentic(s) && Enabled(s, e)
    ensures Authentic(Apply(s, e))
  {
    hide AcceptOrder, OneOwner, Backlogged, Authentic, EpochsAreFresh, AcceptStep, CloseRef, Insert, OnConnected, AcceptBacklog;
    var t := Apply(s, e);
    match e
    case Incoming(h, source) => AdmitKeepsAuthentic(s, h, source);
    case Dialed(h, peer) => InsertKeepsAuthentic(s, h, Some(peer), false, t);
    case Connected(h, tlsPeer) => ConnectedKeepsAuthentic(s, h, tlsPeer, t);
    case AcceptPolled => AcceptKeepsAuthentic(s);
    case DialPolled(ref) => DialPollKeepsAuthentic(s, ref);
    case DialCancelled(ref) => CloseRefKeepsAuthentic(s, ref, t);
    case ResourceClosed(ref) => CloseRefKeepsAuthentic(s, ref, t);
    case ResourceDropped(ref) => CloseRefKeepsAuthentic(s, ref, t);
    case _ => EndedKeepsAuthentic(s, e);
  }

  lemma AdmitKeepsAuthentic(s: Owners, h: Handle, source: Option<EndpointId>)
    requires Authentic(s) && EpochsAreFresh(s)
    ensures Authentic(s.(conns := Admit(s.conns, h, source)))
  {
    hide Authentic, EpochsAreFresh, Insert, AcceptBacklog;
    if AcceptBacklog(s.conns) < ACCEPT_BACKLOG {
      InsertKeepsAuthentic(s, h, source, true, s.(conns := Admit(s.conns, h, source)));
    }
  }

  lemma {:induction false} RunKeepsAuthentic(s: Owners, es: seq<ConnEvent>)
    requires OwnersInv(s) && Authentic(s) && IsRun(s, es)
    ensures Authentic(After(s, es))
    decreases |es|
  {
    hide OwnersInv, Authentic, Apply, Enabled;
    if es != [] {
      StepKeepsInv(s, es[0]);
      StepKeepsAuthentic(s, es[0]);
      RunKeepsAuthentic(Apply(s, es[0]), es[1..]);
    }
  }

  /** No connection is surfaced unauthenticated: whatever an acceptor can be
      given, a dial can resolve to or a resource names, while it is in its slot,
      has the identity its handshake proved, and it is the expected one where the
      dial or the datagram's source named one. */
  lemma SurfacedIsAuthentic(es: seq<ConnEvent>, ref: Ref)
    requires IsRun(NoConns(), es)
    ensures
      var s := After(NoConns(), es);
      IsCurrent(s.conns, ref) && (ref in s.conns.acceptQueue || ref in s.resources || PollDial(s.conns, ref).DialDone?) ==>
        var e := s.conns.entries[ref.handle];
        e.peer.Some? && (e.expectedPeer == None || e.expectedPeer == e.peer)
  {
    hide OwnersInv;
    NoConnsIsGood();
    RunKeepsAuthentic(NoConns(), es);
    RunKeepsInv(NoConns(), es);
    var s := After(NoConns(), es);
    InvParts(s);
    if IsCurrent(s.conns, ref) && ref in s.conns.acceptQueue {
      assert ref in s.connectedLog;
    }
  }
}

/** The relay client's receive path and liveness probe (core/src/relay.rs). */
module RelayClient {
  import opened Types
  import opened RelayFrames

  // ----- values -----

  datatype WsMessage = Binary(frame: seq<byte>) | Text

  /** One resolved `ws.receive`: a message and when it arrived, together with
      whether the websocket takes the pong it may elicit; or a failure. */
  datatype WsReceipt = Message(msg: WsMessage, at: Instant, pongSent: bool) | Failure

  datatype Received = Delivered(datagram: Datagram) | Failed | Parked

  datatype ProbeVerdict = Healthy | Ping(payload: seq<byte>) | Dead

  /** The probe's part of a connection's state. */
  datatype Probe = Probe(lastInbound: Instant, sent: Option<Instant>, seqNo: nat)

  // ----- receive: de-batching -----

  /** The datagrams one receipt carries, by the frame layout alone. */
  function Carried(r: WsReceipt): seq<Datagram> {
    if r.Message? && r.msg.Binary? && Split(r.msg.frame).Some? then
      var (tag, payload) := Split(r.msg.frame).value;
      if tag == RELAY_TO_CLIENT_DATAGRAM || tag == RELAY_TO_CLIENT_DATAGRAM_BATCH then
        match DecodeRelayDatagrams(payload, tag == RELAY_TO_CLIENT_DATAGRAM_BATCH)
        case Some(ds) => ds
        case None => []
      else []
    else []
  }

  /** The payload of the ping one receipt carries, if it is a well-formed ping. */
  function PingOf(r: WsReceipt): Option<seq<byte>> {
    if r.Message? && r.msg.Binary? && Split(r.msg.frame).Some? then
      var (tag, payload) := Split(r.msg.frame).value;
      if tag == PING && |payload| == 8 then Some(payload) else None
    else None
  }

  function AllCarried(rs: seq<WsReceipt>): seq<Datagram> {
    if rs == [] then [] else AllCarried(rs[..|rs| - 1]) + Carried(rs[|rs| - 1])
  }

  /** The pongs that answer the pings of `rs`, in order. */
  function Pongs(rs: seq<WsReceipt>): seq<seq<byte>> {
    if rs == [] then []
    else
      var r := rs[|rs| - 1];
      Pongs(rs[..|rs| - 1]) + if PingOf(r).Some? && r.pongSent then [PingOf(r).value] else []
  }

  /** The liveness stamp after `rs`: the arrival of the last message of any kind. */
  function Stamp(start: Instant, rs: seq<WsReceipt>): Instant {
    if rs == [] then start
    else if rs[|rs| - 1].Message? then rs[|rs| - 1].at
    else Stamp(start, rs[..|rs| - 1])
  }

  /** The arrivals among `rs`, as the probe sees them. */
  function Arrivals(rs: seq<WsReceipt>): seq<ProbeEvent> {
    if rs == [] then []
    else Arrivals(rs[..|rs| - 1]) + if rs[|rs| - 1].Message? then [Inbound(rs[|rs| - 1].at)] else []
  }

  /** A receipt that ends a receive with an error: the socket failed, or the
      pong to its ping could not be sent. */
  predicate Breaks(r: WsReceipt) {
    r.Failure? || (PingOf(r).Some? && !r.pongSent)
  }

  class RelayConn {
    var pending: seq<Datagram>
    var lastInbound: Instant
    var probe: Option<Instant>
    var probeSeq: nat
    /** What this connection has taken off its socket, handed to its caller
        and sent in answer, over its whole life. */
    ghost var connectedAt: Instant
    ghost var consumed: seq<WsReceipt>
    ghost var delivered: seq<Datagram>
    ghost var ponged: seq<seq<byte>>
    /** What has happened to its probe, and whether a step of it ever departed
        from the policy it was made for. */
    ghost const policy: Policy
    ghost var events: seq<ProbeEvent>
    ghost var mixed: bool

    /** De-batching loses, repeats and reorders nothing; the probe's fields are
        where the automaton is after the connection's own events. */
    ghost predicate Valid()
      reads this
    {
      && delivered + pending == AllCarried(consumed)
      && ponged == Pongs(consumed)
      && lastInbound == Stamp(connectedAt, consumed)
      && probeSeq < TWO_TO_THE_64
      && (!mixed ==> ProbeState() == Run(Probe(connectedAt, None, 0), events, policy))
    }

    constructor (now: Instant, ghost policy: Policy)
      ensures Valid() && this.policy == policy && events == [] && !mixed
      ensures pending == [] && lastInbound == connectedAt == now && ProbeState() == Probe(now, None, 0)
      ensures consumed == [] && delivered == [] && ponged == []
    {
      pending := [];
      lastInbound := now;
      probe := None;
      probeSeq := 0;
      connectedAt := now;
      consumed := [];
      delivered := [];
      ponged := [];
      this.policy := policy;
      events := [];
      mixed := false;
    }

    /** The connection has taken the first `used` of `receipts` since it had
        consumed `consumed0` and seen `events0`. */
    ghost predicate Took(consumed0: seq<WsReceipt>, events0: seq<ProbeEvent>, receipts: seq<WsReceipt>, used: nat)
      reads this
    {
      && used <= |receipts|
      && consumed == consumed0 + receipts[..used]
      && events == events0 + Arrivals(receipts[..used])
    }

    /** `receipts` is what the socket will resolve to; the call takes the
        first `used` of them. `Parked` is a call still waiting for the next one. */
    method RecvDatagram(receipts: seq<WsReceipt>) returns (outcome: Received, used: nat)
      requires Valid()
      modifies this
      ensures Valid() && Took(old(consumed), old(events), receipts, used)
      ensures outcome.Delivered? ==> delivered == old(delivered) + [outcome.datagram]
      ensures !outcome.Delivered? ==> delivered == old(delivered) && pending == []
      ensures outcome.Parked? ==> used == |receipts|
      ensures outcome.Failed? <==> 0 < used <= |receipts| && Breaks(receipts[used - 1])
      ensures forall i :: 0 <= i < used - 1 && i < |receipts| ==> !Breaks(receipts[i])
      ensures old(pending) != [] ==> used == 0 && outcome == Delivered(old(pending)[0])
      ensures connectedAt == old(connectedAt) && probe == old(probe) && probeSeq == old(probeSeq) && mixed == old(mixed)
    {
      hide AllCarried, Pongs, Stamp, Breaks, Run, Arrivals;
      used := 0;
      NoArrivals();
      assert receipts[..0] == [];
      while true
        invariant Valid() && used <= |receipts| && Took(old(consumed), old(events), receipts, used)
        invariant delivered == old(delivered)
        invariant if used == 0 then pending == old(pending) else old(pending) == []
        invariant forall i :: 0 <= i < used ==> !Breaks(receipts[i])
        invariant connectedAt == old(connectedAt) && probe == old(probe) && probeSeq == old(probeSeq) && mixed == old(mixed)
        decreases |receipts| - used
      {
        if |pending| > 0 {
          var datagram := pending[0];
          assert delivered + pending == (delivered + [datagram]) + pending[1..];
          delivered := delivered + [datagram];
          pending := pending[1..];
          return Delivered(datagram), used;
        }
        if used == |receipts| {
          return Parked, used;
        }
        var broke := TakeOne(receipts, used, old(consumed), old(events));
        used := used + 1;
        if broke {
          return Failed, used;
        }
      }
    }

    method TakeOne(receipts: seq<WsReceipt>, used: nat, ghost consumed0: seq<WsReceipt>, ghost events0: seq<ProbeEvent>)
      returns (broke: bool)
      requires Valid() && pending == [] && used < |receipts| && Took(consumed0, events0, receipts, used)
      modifies this
      ensures Valid() && Took(consumed0, events0, receipts, used + 1) && broke == Breaks(receipts[used])
      ensures delivered == old(delivered) && (broke ==> pending == [])
      ensures connectedAt == old(connectedAt) && probe == old(probe) && probeSeq == old(probeSeq) && mixed == old(mixed)
    {
      hide AllCarried, Pongs, Stamp, Carried, PingOf, Breaks, Run, Valid;
      ArrivalsSnoc(receipts[..used], receipts[used]);
      assert receipts[..used + 1] == receipts[..used] + [receipts[used]];
      broke := Absorb(receipts[used]);
    }

    /** One resolved receive: stamp it, dispatch on its tag, answer a ping.
        Returns whether it ends the receive with an error. */
    method Absorb(received: WsReceipt) returns (broke: bool)
      requires Valid() && pending == []
      modifies this
      ensures Valid() && broke == Breaks(received)
      ensures broke ==> pending == []
      ensures pending == Carried(received) && delivered == old(delivered)
      ensures consumed == old(consumed) + [received]
      ensures connectedAt == old(connectedAt) && probe == old(probe) && probeSeq == old(probeSeq)
      ensures events == old(events) + (if received.Message? then [Inbound(received.at)] else []) && mixed == old(mixed)
    {
      hide AllCarried, Pongs, Stamp, Carried, PingOf, Run;
      AppendReceipt(connectedAt, consumed, received);
      consumed := consumed + [received];
      broke := received.Failure?;
      if received.Message? {
        RunSnoc(Probe(connectedAt, None, 0), events, Inbound(received.at), policy);
        lastInbound := received.at;
        events := events + [Inbound(received.at)];
      }
      var datagrams, ping := Dispatch(received);
      pending := datagrams;
      if ping.Some? {
        if received.pongSent {
          ponged := ponged + [ping.value];
        } else {
          broke := true;
        }
      }
    }

    function ProbeState(): Probe
      reads this
    {
      Probe(lastInbound, probe, probeSeq)
    }

    /** Some ping has gone the full deadline at `now` with no strictly later frame. */
    ghost predicate PingOverdue(now: Instant)
      reads this
    {
      exists j :: 0 <= j < |events| && PingAt(connectedAt, events, j, policy) && !Answered(events, j, |events|)
                  && now - events[j].at >= policy.deadline
    }

    /** `probe_step`: the fields move as the automaton does, and so the verdict is
        about the connection's own history: dead exactly when a ping is overdue. */
    method ProbeStep(now: Instant, quietAfter: Duration, deadline: Duration) returns (verdict: ProbeVerdict)
      requires Valid()
      modifies this`probe, this`probeSeq, this`events, this`mixed
      ensures Valid()
      ensures (ProbeState(), verdict) == Probed(old(ProbeState()), now, quietAfter, deadline)
      ensures events == old(events) + [Step(now)] && mixed == (old(mixed) || Policy(quietAfter, deadline) != policy)
      ensures !mixed && Monotone(connectedAt, events) ==> (verdict.Dead? <==> old(PingOverdue(now)))
    {
      RunSnoc(Probe(connectedAt, None, 0), events, Step(now), policy);
      if Monotone(connectedAt, events + [Step(now)]) {
        OverdueIsDead(connectedAt, events, now, policy);
      }
      hide Run, PingAt, Answered, Monotone, Probed, AllCarried, Pongs, Stamp;
      verdict := MoveProbe(now, quietAfter, deadline);
      mixed := mixed || Policy(quietAfter, deadline) != policy;
      events := events + [Step(now)];
    }

    method MoveProbe(now: Instant, quietAfter: Duration, deadline: Duration) returns (verdict: ProbeVerdict)
      modifies this`probe, this`probeSeq
      ensures (ProbeState(), verdict) == Probed(old(ProbeState()), now, quietAfter, deadline)
      ensures old(probeSeq) < TWO_TO_THE_64 ==> probeSeq < TWO_TO_THE_64
    {
      hide LittleEndian8;
      if probe.Some? {
        var sent := probe.value;
        if lastInbound > sent {
          probe := None;
        } else if Since(now, sent) >= deadline {
          return Dead;
        } else {
          return Healthy;
        }
      }
      if Since(now, lastInbound) >= quietAfter {
        probe := Some(now);
        var s := (probeSeq + 1) % TWO_TO_THE_64;
        probeSeq := s;
        verdict := Ping(LittleEndian8(s));
      } else {
        verdict := Healthy;
      }
    }
  }

  /** The tag dispatch: what a binary message delivers, or the ping to answer. */
  method Dispatch(received: WsReceipt) returns (datagrams: seq<Datagram>, ping: Option<seq<byte>>)
    ensures datagrams == Carried(received) && ping == PingOf(received)
    ensures datagrams == [] || ping == None
    ensures ping.Some? ==> received.Message?
    ensures received.Failure? ==> datagrams == []
  {
    datagrams, ping := [], None;
    if received.Failure? || received.msg.Text? {
      return;
    }
    var split := SplitTag(received.msg.frame);
    if split == None {
      return;
    }
    var (tag, payload) := split.value;
    if tag == RELAY_TO_CLIENT_DATAGRAM || tag == RELAY_TO_CLIENT_DATAGRAM_BATCH {
      var batch := tag == RELAY_TO_CLIENT_DATAGRAM_BATCH;
      var decoded := DecodeRelayDatagrams(payload, batch);
      if decoded.Some? {
        datagrams := decoded.value;
      }
    } else if tag == PING && |payload| == 8 {
      ping := Some(payload);
    }
  }

  // ----- which frames carry what, by their literal tags -----

  function Framed(tag: nat, code: LengthCode, payload: seq<byte>): seq<byte>
    requires tag < 0x40
  {
    EncodeVarint(tag, code) + payload
  }

  lemma FramesSplit(tag: nat, code: LengthCode, payload: seq<byte>)
    requires tag < 0x40
    ensures Split(Framed(tag, code, payload)) == Some((tag, payload))
  {
    SplitOfEncode(tag, code, payload);
  }

  /** A frame tagged 6 carries one datagram: the 32-byte source, the ECN byte, and the rest. */
  lemma SingleIsCarried(code: LengthCode, source: EndpointId, ecn: byte, payload: seq<byte>, at: Instant, pongSent: bool)
    ensures Carried(Message(Binary(Framed(6, code, source + [ecn] + payload)), at, pongSent)) == [Datagram(source, payload)]
  {
    var body := source + [ecn] + payload;
    FramesSplit(6, code, body);
    assert body[..32] == source && body[32..][1..] == payload;
  }

  /** A frame tagged 7 carries, all from its source, the segments of its contents;
      with a zero segment size it carries none. */
  lemma BatchIsCarried(code: LengthCode, source: EndpointId, ecn: byte, size: nat, contents: seq<byte>, at: Instant, pongSent: bool)
    requires size < 0x1_0000
    ensures
      var ds := Carried(Message(Binary(Framed(7, code, BatchPayload(source, ecn, size, contents))), at, pongSent));
      if size == 0 then ds == []
      else (forall i :: 0 <= i < |ds| ==> ds[i].source == source) && IsSegmentation(Payloads(ds), contents, size)
  {
    FramesSplit(7, code, BatchPayload(source, ecn, size, contents));
    BatchRoundTrip(source, ecn, size, contents);
  }

  /** Nothing else carries a datagram: not text, not a failure, no other tag, no
      payload too short for its layout. */
  lemma OnlyThoseCarry(r: WsReceipt) returns (code: LengthCode, source: EndpointId, ecn: byte, size: nat, body: seq<byte>)
    requires Carried(r) != []
    ensures r.Message? && r.msg.Binary? && size < 0x1_0000
    ensures r.msg.frame == Framed(6, code, source + [ecn] + body)
         || (size > 0 && r.msg.frame == Framed(7, code, BatchPayload(source, ecn, size, body)))
  {
    var (tag, payload) := Split(r.msg.frame).value;
    EncodeOfSplit(r.msg.frame);
    Decodable(payload, tag == 7);
    code, source, ecn := r.msg.frame[0] / 64, payload[..32], payload[32];
    size, body := if tag == 6 then 0 else U16(payload[33], payload[34]), payload[if tag == 6 then 33 else 35..];
    hide Split, DecodeRelayDatagrams, BatchPayload;
  }

  lemma Decodable(payload: seq<byte>, batch: bool)
    requires DecodeRelayDatagrams(payload, batch).Some?
    ensures |payload| >= if batch then 35 else 33
    ensures if batch then U16(payload[33], payload[34]) > 0
                          && payload == BatchPayload(payload[..32], payload[32], U16(payload[33], payload[34]), payload[35..])
            else payload == payload[..32] + [payload[32]] + payload[33..]
  {
  }

  /** A ping is exactly a frame tagged 9 with eight bytes after the tag, and its pong
      carries those eight back. */
  lemma PingsAreFramed(r: WsReceipt, bs: seq<byte>)
    ensures PingOf(r) == Some(bs) <==>
      r.Message? && r.msg.Binary? && |bs| == 8 && exists code: LengthCode :: r.msg.frame == Framed(9, code, bs)
  {
    if PingOf(r) == Some(bs) {
      EncodeOfSplit(r.msg.frame);
      assert r.msg.frame == Framed(9, r.msg.frame[0] / 64, bs);
    }
    if r.Message? && r.msg.Binary? && |bs| == 8 {
      if code: LengthCode :| r.msg.frame == Framed(9, code, bs) {
        FramesSplit(9, code, bs);
      }
    }
  }

  /** A receive fails exactly on a socket failure or when a ping cannot be answered. */
  lemma OnlyThoseBreak(r: WsReceipt)
    ensures Breaks(r) <==>
      r.Failure? || (r.msg.Binary? && !r.pongSent && exists code: LengthCode, bs: seq<byte> :: |bs| == 8 && r.msg.frame == Framed(9, code, bs))
  {
    hide Framed, Split;
    if PingOf(r).Some? {
      PingsAreFramed(r, PingOf(r).value);
    }
    if r.Message? && r.msg.Binary? {
      if code: LengthCode, bs: seq<byte> :| |bs| == 8 && r.msg.frame == Framed(9, code, bs) {
        PingsAreFramed(r, bs);
      }
    }
  }

  lemma AppendReceipt(start: Instant, rs: seq<WsReceipt>, r: WsReceipt)
    ensures AllCarried(rs + [r]) == AllCarried(rs) + Carried(r)
    ensures Pongs(rs + [r]) == Pongs(rs) + if PingOf(r).Some? && r.pongSent then [PingOf(r).value] else []
    ensures Stamp(start, rs + [r]) == if r.Message? then r.at else Stamp(start, rs)
  {
    assert (rs + [r])[..|rs|] == rs;
  }

  // ----- the probe as a timed automaton -----

  /** `u64::to_le_bytes`. */
  function LittleEndian8(v: nat): (bs: seq<byte>)
    ensures |bs| == 8
  {
    Reverse(ToBytes(v, 8))
  }

  function Reverse(bs: seq<byte>): (r: seq<byte>)
    ensures |r| == |bs|
  {
    if bs == [] then [] else Reverse(bs[1..]) + [bs[0]]
  }

  function Probed(p: Probe, now: Instant, quietAfter: Duration, deadline: Duration): (Probe, ProbeVerdict) {
    if p.sent.Some? && p.lastInbound <= p.sent.value then
      (p, if Since(now, p.sent.value) >= deadline then Dead else Healthy)
    else if Since(now, p.lastInbound) >= quietAfter then
      var s := (p.seqNo + 1) % TWO_TO_THE_64;
      (Probe(p.lastInbound, Some(now), s), Ping(LittleEndian8(s)))
    else
      (Probe(p.lastInbound, None, p.seqNo), Healthy)
  }

  /** What happens to a connection's probe: frames arrive, and the caller steps it. */
  datatype ProbeEvent = Inbound(at: Instant) | Step(at: Instant)

  datatype Policy = Policy(quietAfter: Duration, deadline: Duration)

  function After(p: Probe, e: ProbeEvent, pol: Policy): Probe {
    match e
    case Inbound(at) => p.(lastInbound := at)
    case Step(at) => Probed(p, at, pol.quietAfter, pol.deadline).0
  }

  function Run(p: Probe, es: seq<ProbeEvent>, pol: Policy): Probe {
    if es == [] then p else After(Run(p, es[..|es| - 1], pol), es[|es| - 1], pol)
  }

  /** The state a connection's probe is in when it reaches event `i`, `start` being the connect. */
  function Before(start: Instant, es: seq<ProbeEvent>, i: nat, pol: Policy): Probe
    requires i <= |es|
  {
    Run(Probe(start, None, 0), es[..i], pol)
  }

  function Verdict(start: Instant, es: seq<ProbeEvent>, i: nat, pol: Policy): ProbeVerdict
    requires i < |es|
  {
    match es[i]
    case Inbound(_) => Healthy
    case Step(at) => Probed(Before(start, es, i, pol), at, pol.quietAfter, pol.deadline).1
  }

  /** The clock does not run backwards. */
  ghost predicate Monotone(start: Instant, es: seq<ProbeEvent>) {
    && (forall i :: 0 <= i < |es| ==> start <= es[i].at)
    && (forall i, j :: 0 <= i < j < |es| ==> es[i].at <= es[j].at)
  }

  ghost predicate PingAt(start: Instant, es: seq<ProbeEvent>, i: nat, pol: Policy) {
    i < |es| && Verdict(start, es, i, pol).Ping?
  }

  /** Some frame arrived between event `i` and event `n`, strictly later than event `i`'s time. */
  ghost predicate Answered(es: seq<ProbeEvent>, i: nat, n: nat)
    requires i < n <= |es|
  {
    exists k :: i < k < n && es[k].Inbound? && es[k].at > es[i].at
  }

  /** `lastInbound` is the latest frame's arrival, or the connect. */
  ghost predicate StampInv(start: Instant, es: seq<ProbeEvent>, n: nat, pol: Policy)
    requires n <= |es|
  {
    var p := Before(start, es, n, pol);
    && (forall k :: 0 <= k < n && es[k].Inbound? ==> es[k].at <= p.lastInbound)
    && (p.lastInbound == start || exists k :: 0 <= k < n && es[k].Inbound? && es[k].at == p.lastInbound)
  }

  /** `sent` is the time of some ping. */
  ghost predicate SentInv(start: Instant, es: seq<ProbeEvent>, n: nat, pol: Policy)
    requires n <= |es|
  {
    var p := Before(start, es, n, pol);
    p.sent.Some? ==> exists j :: 0 <= j < n && PingAt(start, es, j, pol) && es[j].at == p.sent.value
  }

  /** An unanswered ping is the one `sent` records, and the last one. */
  ghost predicate OutstandingInv(start: Instant, es: seq<ProbeEvent>, n: nat, pol: Policy)
    requires n <= |es|
  {
    forall j :: 0 <= j < n && PingAt(start, es, j, pol) && !Answered(es, j, n) ==>
      && Before(start, es, n, pol).sent == Some(es[j].at)
      && forall k :: j < k < n ==> !PingAt(start, es, k, pol)
  }

  lemma BeforeStep(start: Instant, es: seq<ProbeEvent>, n: nat, pol: Policy)
    requires n < |es|
    ensures Before(start, es, n + 1, pol) == After(Before(start, es, n, pol), es[n], pol)
  {
    assert es[..n + 1][..n] == es[..n];
  }

  lemma {:induction false} StampInvHolds(start: Instant, es: seq<ProbeEvent>, n: nat, pol: Policy)
    requires Monotone(start, es) && n <= |es|
    ensures StampInv(start, es, n, pol)
  {
    if n > 0 {
      StampInvHolds(start, es, n - 1, pol);
      BeforeStep(start, es, n - 1, pol);
    }
  }

  lemma {:induction false} SentInvHolds(start: Instant, es: seq<ProbeEvent>, n: nat, pol: Policy)
    requires n <= |es|
    ensures SentInv(start, es, n, pol)
  {
    if n > 0 {
      SentInvHolds(start, es, n - 1, pol);
      BeforeStep(start, es, n - 1, pol);
      if es[n - 1].Step? && Verdict(start, es, n - 1, pol).Ping? {
        assert PingAt(start, es, n - 1, pol);
      }
    }
  }

  lemma {:induction false} OutstandingInvHolds(start: Instant, es: seq<ProbeEvent>, n: nat, pol: Policy)
    requires Monotone(start, es) && n <= |es|
    ensures OutstandingInv(start, es, n, pol)
  {
    hide PingAt, Before, Answered;
    if n > 0 {
      OutstandingInvHolds(start, es, n - 1, pol);
      forall j | 0 <= j < n && PingAt(start, es, j, pol) && !Answered(es, j, n)
        ensures Before(start, es, n, pol).sent == Some(es[j].at)
        ensures forall k :: j < k < n ==> !PingAt(start, es, k, pol)
      {
        if j == n - 1 {
          PingIsRecorded(start, es, j, pol);
        } else {
          AnsweredGrows(es, j, n - 1);
          OutstandingStays(start, es, j, n - 1, pol);
        }
      }
    }
  }

  lemma PingIsRecorded(start: Instant, es: seq<ProbeEvent>, j: nat, pol: Policy)
    requires PingAt(start, es, j, pol)
    ensures Before(start, es, j + 1, pol).sent == Some(es[j].at)
  {
    BeforeStep(start, es, j, pol);
    hide Before;
  }

  /** An unanswered ping stays the recorded one and holds back the next. */
  lemma OutstandingStays(start: Instant, es: seq<ProbeEvent>, j: nat, m: nat, pol: Policy)
    requires Monotone(start, es) && j < m < |es|
    requires PingAt(start, es, j, pol) && !Answered(es, j, m)
    requires Before(start, es, m, pol).sent == Some(es[j].at)
    ensures Before(start, es, m + 1, pol).sent == Some(es[j].at)
    ensures !PingAt(start, es, m, pol)
  {
    UnansweredPingHolds(start, es, j, m, pol);
    BeforeStep(start, es, m, pol);
    hide Before;
  }

  lemma AnsweredGrows(es: seq<ProbeEvent>, j: nat, m: nat)
    requires j < m < |es|
    ensures Answered(es, j, m) ==> Answered(es, j, m + 1)
  {
  }

  /** Frames no later than an unanswered ping leave it outstanding. */
  lemma UnansweredPingHolds(start: Instant, es: seq<ProbeEvent>, j: nat, n: nat, pol: Policy)
    requires Monotone(start, es) && j < n <= |es|
    requires PingAt(start, es, j, pol) && !Answered(es, j, n)
    ensures Before(start, es, n, pol).lastInbound <= es[j].at
  {
    StampInvHolds(start, es, n, pol);
    var last := Before(start, es, n, pol).lastInbound;
    if last != start {
      var k :| 0 <= k < n && es[k].Inbound? && es[k].at == last;
      assert k <= j || !(es[k].at > es[j].at);
    }
  }

  /** Soundness and completeness of the verdict: a step declares the wire dead
      exactly when some earlier ping has gone its full deadline with no
      strictly later frame. */
  lemma DeadIffPingUnanswered(start: Instant, es: seq<ProbeEvent>, i: nat, pol: Policy)
    requires Monotone(start, es) && i < |es| && es[i].Step?
    ensures Verdict(start, es, i, pol).Dead?
      <==> exists j :: 0 <= j < i && PingAt(start, es, j, pol) && !Answered(es, j, i)
                       && es[i].at - es[j].at >= pol.deadline
  {
    SentInvHolds(start, es, i, pol);
    StampInvHolds(start, es, i, pol);
    OutstandingInvHolds(start, es, i, pol);
    var p := Before(start, es, i, pol);
    if Verdict(start, es, i, pol).Dead? {
      var j :| 0 <= j < i && PingAt(start, es, j, pol) && es[j].at == p.sent.value;
      assert es[j].at <= es[i].at;
      assert !Answered(es, j, i);
    }
    if j :| 0 <= j < i && PingAt(start, es, j, pol) && !Answered(es, j, i)
            && es[i].at - es[j].at >= pol.deadline {
      UnansweredPingHolds(start, es, j, i, pol);
    }
  }

  /** Never two pings in flight: before a second ping goes out, a frame
      strictly later than the first has arrived. */
  lemma AtMostOnePingOutstanding(start: Instant, es: seq<ProbeEvent>, i: nat, j: nat, pol: Policy)
    requires Monotone(start, es) && i < j < |es|
    requires PingAt(start, es, i, pol) && PingAt(start, es, j, pol)
    ensures Answered(es, i, j)
  {
    OutstandingInvHolds(start, es, j + 1, pol);
    assert Answered(es, i, j + 1);
    var k :| i < k < j + 1 && es[k].Inbound? && es[k].at > es[i].at;
    assert k != j;
  }

  lemma RunSnoc(p: Probe, es: seq<ProbeEvent>, e: ProbeEvent, pol: Policy)
    ensures Run(p, es + [e], pol) == After(Run(p, es, pol), e, pol)
  {
    assert (es + [e])[..|es|] == es;
  }

  /** The pings among the first `n` events. */
  ghost function PingCount(start: Instant, es: seq<ProbeEvent>, n: nat, pol: Policy): nat
    requires n <= |es|
  {
    if n == 0 then 0 else PingCount(start, es, n - 1, pol) + if PingAt(start, es, n - 1, pol) then 1 else 0
  }

  /** Every ping of a connection's life carries its own number, counted from one, as
      64 bits in little-endian order. */
  lemma {:induction false} PingsAreNumbered(start: Instant, es: seq<ProbeEvent>, n: nat, pol: Policy)
    requires n <= |es|
    ensures Before(start, es, n, pol).seqNo == PingCount(start, es, n, pol) % TWO_TO_THE_64
    ensures n < |es| && PingAt(start, es, n, pol) ==>
      Verdict(start, es, n, pol) == Ping(LittleEndian8((PingCount(start, es, n, pol) + 1) % TWO_TO_THE_64))
  {
    if n > 0 {
      PingsAreNumbered(start, es, n - 1, pol);
      BeforeStep(start, es, n - 1, pol);
      NextNumber(PingCount(start, es, n - 1, pol));
      hide LittleEndian8, Run;
    } else {
      NextNumber(0);
      hide LittleEndian8, Run;
      assert Before(start, es, 0, pol) == Probe(start, None, 0);
    }
    NextNumber(PingCount(start, es, n, pol));
  }

  lemma NextNumber(k: nat)
    ensures (k % TWO_TO_THE_64 + 1) % TWO_TO_THE_64 == (k + 1) % TWO_TO_THE_64
  {
  }

  /** The eight bytes are the number's, least significant first. */
  lemma LittleEndianReads(v: nat)
    requires v < TWO_TO_THE_64
    ensures BigEndian(Reverse(LittleEndian8(v))) == v
  {
    ReverseTwice(ToBytes(v, 8));
    assert Pow256(4) == 0x1_0000_0000;
    assert Pow256(8) == TWO_TO_THE_64;
    BigEndianOfToBytes(v, 8);
  }

  lemma {:induction false} ReverseSnoc(bs: seq<byte>, b: byte)
    ensures Reverse(bs + [b]) == [b] + Reverse(bs)
  {
    if bs == [] {
      assert [] + [b] == [b] && Reverse([b]) == [b];
    } else {
      ReverseSnoc(bs[1..], b);
      assert (bs + [b])[1..] == bs[1..] + [b];
    }
  }

  lemma {:induction false} ReverseTwice(bs: seq<byte>)
    ensures Reverse(Reverse(bs)) == bs
  {
    if bs != [] {
      ReverseTwice(bs[1..]);
      ReverseSnoc(Reverse(bs[1..]), bs[0]);
    }
  }

  lemma NoArrivals()
    ensures Arrivals([]) == []
  {
  }

  lemma ArrivalsSnoc(rs: seq<WsReceipt>, r: WsReceipt)
    ensures Arrivals(rs + [r]) == Arrivals(rs) + if r.Message? then [Inbound(r.at)] else []
  {
    assert (rs + [r])[..|rs|] == rs;
  }

  /** A step at `now` after `es` is deadly exactly when one of `es`'s pings is overdue. */
  lemma OverdueIsDead(start: Instant, es: seq<ProbeEvent>, now: Instant, pol: Policy)
    requires Monotone(start, es + [Step(now)])
    ensures Probed(Run(Probe(start, None, 0), es, pol), now, pol.quietAfter, pol.deadline).1.Dead?
      <==> exists j :: 0 <= j < |es| && PingAt(start, es, j, pol) && !Answered(es, j, |es|)
                       && now - es[j].at >= pol.deadline
  {
    var all := es + [Step(now)];
    assert all[..|es|] == es;
    DeadIffPingUnanswered(start, all, |es|, pol);
    hide Probed, Run, Monotone;
    forall j | 0 <= j < |es|
      ensures PingAt(start, all, j, pol) <==> PingAt(start, es, j, pol)
      ensures Answered(all, j, |es|) <==> Answered(es, j, |es|)
    {
      assert all[..j] == es[..j] && all[j] == es[j];
      AnsweredAlike(es, all, j);
    }
  }

  lemma AnsweredAlike(es: seq<ProbeEvent>, all: seq<ProbeEvent>, j: nat)
    requires j < |es| <= |all| && all[..|es|] == es
    ensures Answered(all, j, |es|) <==> Answered(es, j, |es|)
  {
    assert forall k :: 0 <= k < |es| ==> all[k] == all[..|es|][k] == es[k];
    if k :| j < k < |es| && all[k].Inbound? && all[k].at > all[j].at {
      assert es[k].Inbound? && es[k].at > es[j].at;
    }
    if k :| j < k < |es| && es[k].Inbound? && es[k].at > es[j].at {
      assert all[k].Inbound? && all[k].at > all[j].at;
    }
  }

  // ----- the detection window -----

  /** From event `m` on the caller steps the probe and no frame arrives; `m` is
      the connect or comes right after the last frame. */
  ghost predicate SilentFrom(es: seq<ProbeEvent>, m: nat) {
    && m < |es|
    && (m == 0 || es[m - 1].Inbound?)
    && forall i :: m <= i < |es| ==> es[i].Step?
  }

  /** Steps at most `gap` apart, the first no more than `gap` after `last`. */
  ghost predicate Paced(es: seq<ProbeEvent>, m: nat, last: Instant, gap: Duration)
    requires m < |es|
  {
    && es[m].at <= last + gap
    && forall i :: m <= i < |es| - 1 ==> es[i + 1].at <= es[i].at + gap
  }

  function LastFrame(start: Instant, es: seq<ProbeEvent>, m: nat): Instant
    requires m <= |es|
  {
    if m == 0 then start else es[m - 1].at
  }

  /** A ping went out at the very instant of the last frame, before it. */
  ghost predicate Tied(start: Instant, es: seq<ProbeEvent>, m: nat, pol: Policy)
    requires m <= |es|
  {
    Before(start, es, m, pol).sent == Some(LastFrame(start, es, m))
  }

  /** The first step from `m` on that is no earlier than `t`. */
  lemma {:induction false} FirstStepAt(es: seq<ProbeEvent>, m: nat, t: Instant) returns (f: nat)
    requires m < |es| && es[|es| - 1].at >= t
    ensures m <= f < |es| && es[f].at >= t
    ensures forall i :: m <= i < f ==> es[i].at < t
    decreases |es| - m
  {
    f := m;
    if es[m].at < t {
      f := FirstStepAt(es, m + 1, t);
    }
  }

  lemma SilenceBegins(start: Instant, es: seq<ProbeEvent>, m: nat, pol: Policy)
    requires Monotone(start, es) && SilentFrom(es, m)
    ensures Before(start, es, m, pol).lastInbound == LastFrame(start, es, m)
    ensures var sent := Before(start, es, m, pol).sent; sent.Some? ==> sent.value <= LastFrame(start, es, m)
  {
    if m > 0 {
      BeforeStep(start, es, m - 1, pol);
      SentInvHolds(start, es, m - 1, pol);
    }
  }

  /** Until the quiet interval has passed the probe does nothing. */
  lemma {:induction false} QuietPhase(start: Instant, es: seq<ProbeEvent>, m: nat, i: nat, pol: Policy)
    requires Monotone(start, es) && SilentFrom(es, m) && !Tied(start, es, m, pol)
    requires m <= i < |es|
    requires forall k :: m <= k < i ==> es[k].at < LastFrame(start, es, m) + pol.quietAfter
    ensures
      var p, last := Before(start, es, i, pol), LastFrame(start, es, m);
      p.lastInbound == last && (p.sent.Some? ==> p.sent.value < last)
    ensures forall k :: m <= k < i ==> Verdict(start, es, k, pol).Healthy?
  {
    SilenceBegins(start, es, m, pol);
    if i > m {
      QuietPhase(start, es, m, i - 1, pol);
      BeforeStep(start, es, i - 1, pol);
    }
  }

  /** After the ping, until its deadline, the probe waits. */
  lemma {:induction false} WaitPhase(start: Instant, es: seq<ProbeEvent>, f: nat, i: nat, sent: Instant, pol: Policy)
    requires Monotone(start, es) && f <= i < |es| && sent <= es[f].at
    requires forall k :: f <= k < |es| ==> es[k].Step?
    requires var p := Before(start, es, f, pol); p.sent == Some(sent) && p.lastInbound <= sent
    requires forall k :: f <= k < i ==> es[k].at < sent + pol.deadline
    ensures Before(start, es, i, pol) == Before(start, es, f, pol)
    ensures forall k :: f <= k < i ==> Verdict(start, es, k, pol).Healthy?
    ensures Verdict(start, es, i, pol).Dead? <==> es[i].at >= sent + pol.deadline
  {
    if i > f {
      WaitPhase(start, es, f, i - 1, sent, pol);
      BeforeStep(start, es, i - 1, pol);
    }
  }

  /** The first step after the quiet interval pings. */
  lemma PingPhase(start: Instant, es: seq<ProbeEvent>, m: nat, pol: Policy) returns (f: nat)
    requires Monotone(start, es) && SilentFrom(es, m) && !Tied(start, es, m, pol)
    requires es[|es| - 1].at >= LastFrame(start, es, m) + pol.quietAfter
    ensures m <= f < |es| && PingAt(start, es, f, pol)
    ensures forall i :: m <= i < f ==>
      Verdict(start, es, i, pol).Healthy? && es[i].at < LastFrame(start, es, m) + pol.quietAfter
    ensures es[f].at >= LastFrame(start, es, m) + pol.quietAfter
    ensures
      var p := Before(start, es, f + 1, pol);
      p.sent == Some(es[f].at) && p.lastInbound == LastFrame(start, es, m)
  {
    f := FirstStepAt(es, m, LastFrame(start, es, m) + pol.quietAfter);
    QuietPhase(start, es, m, f, pol);
    BeforeStep(start, es, f, pol);
    assert PingAt(start, es, f, pol);
  }

  /** A ping that stays unanswered is followed by death within one gap of its deadline. */
  lemma DeathPhase(start: Instant, es: seq<ProbeEvent>, f: nat, gap: Duration, pol: Policy) returns (g: nat)
    requires Monotone(start, es) && f < |es| && forall k :: f <= k < |es| ==> es[k].Step?
    requires forall i :: f <= i < |es| - 1 ==> es[i + 1].at <= es[i].at + gap
    requires gap > 0 && es[|es| - 1].at >= es[f].at + pol.deadline + gap
    requires var p := Before(start, es, f + 1, pol); p.sent == Some(es[f].at) && p.lastInbound <= es[f].at
    ensures f < g < |es| && Verdict(start, es, g, pol).Dead?
    ensures forall i :: f < i < g ==> Verdict(start, es, i, pol).Healthy?
    ensures es[f].at + pol.deadline <= es[g].at <= es[f].at + pol.deadline + gap
    ensures pol.deadline > 0 ==> es[g].at < es[f].at + pol.deadline + gap
  {
    hide Probed, Run, Before, Verdict;
    g := FirstStepAt(es, f + 1, es[f].at + pol.deadline);
    WaitPhase(start, es, f + 1, g, es[f].at, pol);
    assert es[g].at <= es[g - 1].at + gap;
  }

  /** A wire that falls silent is pinged at `f` and declared dead at `g`, no
      sooner than the quiet interval plus the deadline after its last frame
      and within two step gaps of that. */
  lemma DetectionWindow(start: Instant, es: seq<ProbeEvent>, m: nat, gap: Duration, pol: Policy)
    returns (f: nat, g: nat)
    requires Monotone(start, es) && SilentFrom(es, m) && !Tied(start, es, m, pol)
    requires gap > 0 && Paced(es, m, LastFrame(start, es, m), gap)
    requires es[|es| - 1].at >= LastFrame(start, es, m) + pol.quietAfter + pol.deadline + 2 * gap
    ensures m <= f < g < |es|
    ensures PingAt(start, es, f, pol) && Verdict(start, es, g, pol).Dead?
    ensures forall i :: m <= i < g && i != f ==> Verdict(start, es, i, pol).Healthy?
    ensures
      var last := LastFrame(start, es, m);
      && last + pol.quietAfter <= es[f].at <= last + pol.quietAfter + gap
      && last + pol.quietAfter + pol.deadline <= es[g].at <= last + pol.quietAfter + pol.deadline + 2 * gap
      && (pol.quietAfter + pol.deadline > 0 ==> es[g].at < last + pol.quietAfter + pol.deadline + 2 * gap)
  {
    f := PingPhase(start, es, m, pol);
    hide PingAt, Probed, Run, Before, Verdict;
    assert f > m ==> es[f].at <= es[f - 1].at + gap;
    g := DeathPhase(start, es, f, gap, pol);
  }

  /** When the last ping and the last frame are simultaneous, the frame does not
      answer the ping: the wire is declared dead one deadline after them. */
  lemma TiedWindow(start: Instant, es: seq<ProbeEvent>, m: nat, gap: Duration, pol: Policy) returns (g: nat)
    requires Monotone(start, es) && SilentFrom(es, m) && Tied(start, es, m, pol)
    requires gap > 0 && Paced(es, m, LastFrame(start, es, m), gap)
    requires es[|es| - 1].at >= LastFrame(start, es, m) + pol.deadline
    ensures m <= g < |es| && Verdict(start, es, g, pol).Dead?
    ensures forall i :: m <= i < g ==> Verdict(start, es, i, pol).Healthy?
    ensures var last := LastFrame(start, es, m); last + pol.deadline <= es[g].at <= last + pol.deadline + gap
  {
    SilenceBegins(start, es, m, pol);
    g := FirstStepAt(es, m, LastFrame(start, es, m) + pol.deadline);
    WaitPhase(start, es, m, g, LastFrame(start, es, m), pol);
  }

  /** The lower end of the window holds of every way the silence can go on, if
      and only if the silence does not begin with such a tie. */
  lemma EarlyDeathIffTied(start: Instant, es: seq<ProbeEvent>, pol: Policy)
    requires Monotone(start, es) && (es == [] || es[|es| - 1].Inbound?) && pol.quietAfter > 0
    ensures !Tied(start, es, |es|, pol) <==>
            forall more: seq<ProbeEvent> :: NotDeadEarly(start, es, more, pol)
  {
    var m, last := |es|, LastFrame(start, es, |es|);
    if Tied(start, es, m, pol) {
      var more := [Step(last + pol.deadline)];
      var all := es + more;
      assert all[..m] == es[..m] == es;
      SilenceBegins(start, all, m, pol);
      assert Verdict(start, all, m, pol).Dead?;
      assert !NotDeadEarly(start, es, more, pol);
    } else {
      forall more: seq<ProbeEvent> ensures NotDeadEarly(start, es, more, pol) {
        NoEarlyDeath(start, es, more, pol);
      }
    }
  }

  ghost predicate NotDeadEarly(start: Instant, es: seq<ProbeEvent>, more: seq<ProbeEvent>, pol: Policy) {
    var all, m := es + more, |es|;
    Monotone(start, all) && SilentFrom(all, m) ==>
      forall i :: m <= i < |all| && Verdict(start, all, i, pol).Dead? ==>
        all[i].at >= LastFrame(start, all, m) + pol.quietAfter + pol.deadline
  }

  lemma NoEarlyDeath(start: Instant, es: seq<ProbeEvent>, more: seq<ProbeEvent>, pol: Policy)
    requires !Tied(start, es, |es|, pol)
    ensures NotDeadEarly(start, es, more, pol)
  {
    var all, m := es + more, |es|;
    if Monotone(start, all) && SilentFrom(all, m) {
      assert all[..m] == es == es[..m];
      assert !Tied(start, all, m, pol);
      forall i | m <= i < |all| && Verdict(start, all, i, pol).Dead?
        ensures all[i].at >= LastFrame(start, all, m) + pol.quietAfter + pol.deadline
      {
        DeathIsLate(start, all, m, i, pol);
      }
    }
  }

  lemma DeathIsLate(start: Instant, es: seq<ProbeEvent>, m: nat, i: nat, pol: Policy)
    requires Monotone(start, es) && SilentFrom(es, m) && !Tied(start, es, m, pol)
    requires m <= i < |es| && Verdict(start, es, i, pol).Dead?
    ensures es[i].at >= LastFrame(start, es, m) + pol.quietAfter + pol.deadline
  {
    var t := LastFrame(start, es, m) + pol.quietAfter;
    if es[i].at < t {
      QuietPhase(start, es, m, i, pol);
    } else {
      var f := FirstStepAt(es, m, t);
      QuietPhase(start, es, m, f, pol);
      BeforeStep(start, es, f, pol);
      if es[i].at < es[f].at + pol.deadline && f < i {
        WaitPhase(start, es, f + 1, i, es[f].at, pol);
      }
    }
  }

  /** A tie in numbers: pinged at 15 s, a frame at the same instant, dead at
      20 s although the last frame was at 15 s and the quiet interval is 15 s. */
  lemma TieExample()
    ensures
      var pol := Policy(15, 5);
      var es := [Step(15), Inbound(15), Step(20)];
      && Monotone(0, es) && SilentFrom(es, 2) && Tied(0, es, 2, pol)
      && Verdict(0, es, 2, pol).Dead?
      && es[2].at < LastFrame(0, es, 2) + pol.quietAfter + pol.deadline
  {
    var pol := Policy(15, 5);
    var es := [Step(15), Inbound(15), Step(20)];
    assert Before(0, es, 0, pol) == Probe(0, None, 0);
    BeforeStep(0, es, 0, pol);
    BeforeStep(0, es, 1, pol);
  }
}

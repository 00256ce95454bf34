/** The receive half of a stream: the single-reader guard and the latched
    terminal outcome (endpoint/src/endpoint_impl.rs). */
module RecvStreams {
  import opened Types

  /** noq's receive stream: the in-order bytes that have arrived, how many were
      taken, how the peer ended it, whether its end was consumed, and whether
      its state went down with the connection. */
  datatype NoqRecv = NoqRecv(bytes: seq<byte>, taken: nat, fin: bool, reset: Option<nat>, spent: bool, torn: bool)

  /** noq's answer to one ordered read. */
  datatype ReadAnswer = Chunk(n: nat) | FinReached | NothingYet | ResetBy(code: nat) | StreamClosed | Unordered

  /** What a `read` resolves to. */
  datatype ReadResult = Bytes(bytes: seq<byte>) | CleanEnd | Failed(error: Error)

  /** noq's discipline. A stream's state outlives its connection's failure
      report only as long as noq keeps it: torn down means the failure is recorded. */
  predicate AnswerFits(n: NoqRecv, max: nat, a: ReadAnswer) {
    match a
    case Chunk(k) => 0 < k <= max && n.taken + k <= |n.bytes| && n.reset == None && !n.spent && !n.torn
    case FinReached => n.fin && n.taken == |n.bytes| && n.reset == None && !n.spent && !n.torn
    case NothingYet => n.taken == |n.bytes| && !n.fin && n.reset == None && !n.spent && !n.torn
    case ResetBy(code) => n.reset == Some(code) && !n.spent && !n.torn
    case StreamClosed => n.spent || n.torn
    case Unordered => false
  }

  // ----- the operations -----

  /** One poll of `read_some`. */
  function ReadSome(n: NoqRecv, entry: Entry, a: ReadAnswer): (NoqRecv, Option<ReadResult>)
    requires a.Chunk? ==> n.taken + a.n <= |n.bytes|
  {
    if entry.Gone? then (n, Some(Failed(Closed)))
    else
      match a
      case Chunk(k) => (n.(taken := n.taken + k), Some(Bytes(n.bytes[n.taken..n.taken + k])))
      case FinReached => (n.(spent := true), Some(CleanEnd))
      case NothingYet => (n, if entry.error.Some? then Some(Failed(entry.error.value)) else None)
      case ResetBy(code) => (n.(spent := true), Some(Failed(Reset(code))))
      case StreamClosed => (n, Some(if entry.error.Some? then Failed(entry.error.value) else CleanEnd))
      case Unordered => (n, Some(Failed(Other)))
  }

  /** The polls after which `read_some` kicks the pump: bytes or the FIN came.
      One that consumes a RESET does not. */
  predicate ReadKicks(entry: Entry, a: ReadAnswer) {
    entry.Present? && (a.Chunk? || a.FinReached?)
  }

  /** A poll reports a clean end exactly at the FIN, or when noq has dropped the
      stream's state with no failure on record. */
  lemma CleanEndExactly(n: NoqRecv, error: Option<Error>, a: ReadAnswer)
    requires a.Chunk? ==> n.taken + a.n <= |n.bytes|
    ensures ReadSome(n, Present(error), a).1 == Some(CleanEnd)
      <==> a.FinReached? || (a.StreamClosed? && error == None)
  {
  }

  /** The resource's own state. */
  datatype Reader = Reader(streaming: bool, terminal: Option<ReadResult>, reading: bool)

  /** `read` before it parks: an answer at once, or the claim taken. */
  function BeginRead(r: Reader, max: nat): (Reader, Option<ReadResult>) {
    if r.streaming then (r, Some(Failed(InUse)))
    else if r.terminal.Some? then (r, r.terminal)
    else if max == 0 then (r, Some(Bytes([])))
    else if r.reading then (r, Some(Failed(InUse)))
    else (r.(reading := true), None)
  }

  /** `read` resolving: anything but bytes is latched; the claim is released. */
  function EndRead(r: Reader, result: ReadResult): Reader {
    r.(reading := false, terminal := if result.Bytes? then r.terminal else Some(result))
  }

  class RecvStreamRes {
    var streaming: bool
    var terminal: Option<ReadResult>
    var reading: bool
    var noq: NoqRecv

    constructor ()
      ensures Current() == Reader(false, None, false) && noq == NoqRecv([], 0, false, None, false, false)
    {
      streaming, terminal, reading := false, None, false;
      noq := NoqRecv([], 0, false, None, false, false);
    }

    function Current(): Reader
      reads this
    {
      Reader(streaming, terminal, reading)
    }

    method ReadCall(max: nat) returns (now: Option<ReadResult>)
      modifies this`reading
      ensures (Current(), now) == BeginRead(old(Current()), max)
    {
      if streaming {
        return Some(Failed(InUse));
      }
      if terminal.Some? {
        return terminal;
      }
      if max == 0 {
        return Some(Bytes([]));
      }
      if reading {
        return Some(Failed(InUse));
      }
      reading := true;
      return None;
    }

    /** One poll of a parked read; a resolved one latches and unclaims. */
    method ReadPoll(entry: Entry, answer: ReadAnswer) returns (result: Option<ReadResult>, kick: bool)
      requires answer.Chunk? ==> noq.taken + answer.n <= |noq.bytes|
      modifies this
      ensures (noq, result) == ReadSome(old(noq), entry, answer)
      ensures kick == ReadKicks(entry, answer)
      ensures Current() == if result.Some? then EndRead(old(Current()), result.value) else old(Current())
    {
      result, kick := None, false;
      if entry.Gone? {
        result := Some(Failed(Closed));
      } else {
        var connFailure := entry.error;
        match answer {
          case Chunk(n) =>
            result := Some(Bytes(noq.bytes[noq.taken..noq.taken + n]));
            noq := noq.(taken := noq.taken + n);
            kick := true;
          case FinReached =>
            result := Some(CleanEnd);
            noq := noq.(spent := true);
            kick := true;
          case NothingYet =>
            if connFailure.Some? {
              result := Some(Failed(connFailure.value));
            }
          case ResetBy(code) =>
            result := Some(Failed(Reset(code)));
            noq := noq.(spent := true);
          case StreamClosed =>
            result := Some(if connFailure.Some? then Failed(connFailure.value) else CleanEnd);
          case Unordered =>
            result := Some(Failed(Other));
        }
      }
      if result.Some? {
        if !result.value.Bytes? {
          terminal := result;
        }
        reading := false;
      }
    }

    /** The read's future is dropped while parked: only the claim goes. */
    method ReadCancelled()
      modifies this`reading
      ensures Current() == old(Current()).(reading := false) && noq == old(noq)
    {
      reading := false;
    }
  }

  // ----- the machine: a stream read by `read` alone -----

  /** `results` lists what every call returned, `returned` the bytes of them all;
      `failure` is the connection's recorded failure. */
  datatype Receiver = Receiver(
    reader: Reader,
    noq: NoqRecv,
    failure: Option<Error>,
    gone: bool,
    parked: set<nat>,
    nextRead: nat,
    returned: seq<byte>,
    results: seq<ReadResult>)

  function NewReceiver(): Receiver {
    Receiver(Reader(false, None, false), NoqRecv([], 0, false, None, false, false), None, false, {}, 0, [], [])
  }

  datatype RecvEvent =
    | ReadCalled(max: nat)
    | ReadPolled(id: nat, max: nat, answer: ReadAnswer)
    | ReadCancelled(id: nat)
    | Arrived(bytes: seq<byte>)
    | FinArrived
    | ResetArrived(code: nat)
    | ConnectionFailed(error: Error)
    | TornDown
    | SlotReused

  predicate Enabled(s: Receiver, e: RecvEvent) {
    match e
    case ReadCalled(_) => true
    case ReadPolled(id, max, answer) => id in s.parked && (!s.gone ==> AnswerFits(s.noq, max, answer))
    case ReadCancelled(id) => id in s.parked
    case Arrived(_) => !s.noq.fin && s.noq.reset == None && !s.noq.torn
    case FinArrived => s.noq.reset == None && !s.noq.torn
    case ResetArrived(_) => s.noq.reset == None && !s.noq.torn
    case ConnectionFailed(_) => s.failure == None
    case TornDown => s.failure.Some?
    case SlotReused => s.failure.Some?
  }

  function EntryOf(s: Receiver): Entry { if s.gone then Gone else Present(s.failure) }

  function Returned(s: Receiver, r: ReadResult): Receiver {
    s.(returned := if r.Bytes? then s.returned + r.bytes else s.returned, results := s.results + [r])
  }

  function Polled(s: Receiver, id: nat, answer: ReadAnswer): Receiver
    requires answer.Chunk? ==> s.noq.taken + answer.n <= |s.noq.bytes|
  {
    var (noq, result) := ReadSome(s.noq, EntryOf(s), answer);
    match result
    case None => s
    case Some(r) => Returned(s.(noq := noq, reader := EndRead(s.reader, r), parked := s.parked - {id}), r)
  }

  function Apply(s: Receiver, e: RecvEvent): Receiver
    requires Enabled(s, e)
  {
    match e
    case ReadCalled(max) =>
      var (reader, now) := BeginRead(s.reader, max);
      (match now
       case Some(r) => Returned(s, r)
       case None => s.(reader := reader, parked := s.parked + {s.nextRead}, nextRead := s.nextRead + 1))
    case ReadPolled(id, max, answer) =>
      Polled(s, id, if s.gone then NothingYet else answer)
    case ReadCancelled(id) => s.(reader := s.reader.(reading := false), parked := s.parked - {id})
    case Arrived(bytes) => s.(noq := s.noq.(bytes := s.noq.bytes + bytes))
    case FinArrived => s.(noq := s.noq.(fin := true))
    case ResetArrived(code) => s.(noq := s.noq.(reset := Some(code)))
    case ConnectionFailed(error) => s.(failure := Some(error))
    case TornDown => s.(noq := s.noq.(torn := true))
    case SlotReused => s.(gone := true)
  }

  /** At most one read parked, exactly when the claim is taken. */
  ghost predicate OneReader(s: Receiver) {
    && (s.reader.reading <==> s.parked != {})
    && (forall i, j :: i in s.parked && j in s.parked ==> i == j)
    && (s.reader.terminal.Some? ==> s.parked == {})
    && !s.reader.streaming
  }

  /** What the reads returned is exactly what was taken, a prefix of what arrived. */
  ghost predicate PrefixReturned(s: Receiver) {
    && s.noq.taken <= |s.noq.bytes|
    && s.returned == s.noq.bytes[..s.noq.taken]
  }

  /** The latch: a consumed end is recorded, a recorded outcome is never bytes,
      and a clean end means the FIN was reached with every byte returned. */
  ghost predicate Latched(s: Receiver) {
    && (s.noq.spent ==> s.reader.terminal.Some?)
    && (s.noq.torn || s.gone ==> s.failure.Some?)
    && (s.reader.terminal.Some? ==> !s.reader.terminal.value.Bytes?)
    && (s.reader.terminal == Some(CleanEnd) ==> s.noq.fin && s.returned == s.noq.bytes)
  }

  ghost predicate ReceiverInv(s: Receiver) {
    OneReader(s) && PrefixReturned(s) && Latched(s)
  }

  lemma StepKeepsInv(s: Receiver, e: RecvEvent)
    requires ReceiverInv(s) && Enabled(s, e)
    ensures ReceiverInv(Apply(s, e))
  {
    match e
    case ReadPolled(id, max, answer) => PollKeeps(s, id, max, answer);
    case ReadCalled(max) => CallKeeps(s, max);
    case ReadCancelled(id) =>
      assert s.parked - {id} == {};
    case Arrived(bytes) =>
      assert (s.noq.bytes + bytes)[..s.noq.taken] == s.noq.bytes[..s.noq.taken];
    case _ =>
  }

  lemma CallKeeps(s: Receiver, max: nat)
    requires ReceiverInv(s)
    ensures ReceiverInv(Apply(s, ReadCalled(max)))
  {
    assert s.returned + [] == s.returned;
    assert s.nextRead in s.parked + {s.nextRead};
  }

  lemma PollKeeps(s: Receiver, id: nat, max: nat, answer: ReadAnswer)
    requires ReceiverInv(s) && Enabled(s, ReadPolled(id, max, answer))
    ensures ReceiverInv(Apply(s, ReadPolled(id, max, answer)))
  {
    assert s.parked - {id} == {};
    if !s.gone && answer.Chunk? {
      var n := answer.n;
      assert s.noq.bytes[..s.noq.taken] + s.noq.bytes[s.noq.taken..s.noq.taken + n] == s.noq.bytes[..s.noq.taken + n];
    }
    assert s.noq.bytes[..|s.noq.bytes|] == s.noq.bytes;
  }

  ghost predicate IsRun(s: Receiver, es: seq<RecvEvent>)
    decreases |es|
  {
    es == [] || (Enabled(s, es[0]) && IsRun(Apply(s, es[0]), es[1..]))
  }

  ghost function After(s: Receiver, es: seq<RecvEvent>): Receiver
    requires IsRun(s, es)
    decreases |es|
  {
    if es == [] then s else After(Apply(s, es[0]), es[1..])
  }

  lemma {:induction false} RunKeepsInv(s: Receiver, es: seq<RecvEvent>)
    requires ReceiverInv(s) && IsRun(s, es)
    ensures ReceiverInv(After(s, es))
    decreases |es|
  {
    hide ReceiverInv, Enabled, Apply;
    if es != [] {
      StepKeepsInv(s, es[0]);
      RunKeepsInv(Apply(s, es[0]), es[1..]);
    }
  }

  lemma NewReceiverIsGood()
    ensures ReceiverInv(NewReceiver())
  {
  }

  /** Over every run of a stream read by `read` alone: the chunks returned
      concatenate to a prefix of what arrived, of exactly what was taken; a
      clean end was reached only with the FIN there and every byte returned; and
      at most one read is ever parked. */
  lemma ReadsAreExact(es: seq<RecvEvent>)
    requires IsRun(NewReceiver(), es)
    ensures
      var t := After(NewReceiver(), es);
      && t.noq.taken <= |t.noq.bytes| && t.returned == t.noq.bytes[..t.noq.taken]
      && (t.reader.terminal == Some(CleanEnd) ==> t.noq.fin && t.returned == t.noq.bytes)
      && (forall i, j :: i in t.parked && j in t.parked ==> i == j)
      && (t.reader.terminal.Some? ==> !t.reader.terminal.value.Bytes? && t.parked == {})
  {
    hide Enabled, Apply;
    NewReceiverIsGood();
    RunKeepsInv(NewReceiver(), es);
  }

  /** The first terminal outcome is the outcome of every later `read`: no call
      returns anything else, and none takes a byte. */
  lemma {:induction false} TerminalRepeats(s: Receiver, es: seq<RecvEvent>)
    requires ReceiverInv(s) && IsRun(s, es) && s.reader.terminal.Some?
    ensures
      var t := After(s, es);
      && t.reader.terminal == s.reader.terminal
      && t.returned == s.returned && t.noq.taken == s.noq.taken
      && |s.results| <= |t.results|
      && t.results[..|s.results|] == s.results
      && forall i :: |s.results| <= i < |t.results| ==> t.results[i] == s.reader.terminal.value
    decreases |es|
  {
    if es != [] {
      StepKeepsInv(s, es[0]);
      TerminalStep(s, es[0]);
      hide ReceiverInv, Enabled, Apply;
      TerminalRepeats(Apply(s, es[0]), es[1..]);
      var m := Apply(s, es[0]);
      var t := After(m, es[1..]);
      assert t.results[..|s.results|] == t.results[..|m.results|][..|s.results|];
      forall i | |s.results| <= i < |t.results| ensures t.results[i] == s.reader.terminal.value {
        if i < |m.results| {
          assert t.results[i] == t.results[..|m.results|][i] == m.results[i];
        }
      }
    }
  }

  lemma TerminalStep(s: Receiver, e: RecvEvent)
    requires ReceiverInv(s) && Enabled(s, e) && s.reader.terminal.Some?
    ensures
      var t := Apply(s, e);
      && t.reader.terminal == s.reader.terminal
      && t.returned == s.returned && t.noq.taken == s.noq.taken
      && (t.results == s.results || t.results == s.results + [s.reader.terminal.value])
  {
  }

  /** What a poll of read answers. */
  function PollResult(s: Receiver, answer: ReadAnswer): Option<ReadResult>
    requires !s.gone && answer.Chunk? ==> s.noq.taken + answer.n <= |s.noq.bytes|
  {
    ReadSome(s.noq, EntryOf(s), if s.gone then NothingYet else answer).1
  }

  /** While noq holds bytes for the reader, a read fails if and only if its slot
      was reused. With none left, or the stream's state torn down with the
      connection, a failure is the connection's or the peer's reset, and it is
      never a clean end. */
  lemma FailureNeverJumpsAhead(s: Receiver, id: nat, max: nat, answer: ReadAnswer)
    requires ReceiverInv(s) && Enabled(s, ReadPolled(id, max, answer))
    ensures
      var r := PollResult(s, answer);
      && (s.noq.taken < |s.noq.bytes| && !s.noq.torn && s.noq.reset == None && !s.noq.spent ==>
            (r.Some? && r.value.Failed? <==> s.gone))
      && (s.gone ==> r == Some(Failed(Closed)))
      && (!s.gone && r.Some? && r.value.Failed? && !answer.ResetBy? ==> s.failure == Some(r.value.error))
      && (r == Some(CleanEnd) <==> !s.gone && answer.FinReached?)
      && (r == Some(CleanEnd) ==> s.noq.fin && s.noq.taken == |s.noq.bytes|)
  {
  }

  /** A read whose slot was reused fails with two bytes unread. */
  lemma ReusedSlotExample()
    ensures
      var es := [ReadCalled(9), Arrived([1, 2]), ConnectionFailed(TimedOut), SlotReused, ReadPolled(0, 9, NothingYet)];
      && IsRun(NewReceiver(), es)
      && var t := After(NewReceiver(), es);
         t.results == [Failed(Closed)] && t.returned == [] && t.noq.bytes == [1, 2] && !t.noq.torn
  {
    var s0 := NewReceiver();
    var s1 := Apply(s0, ReadCalled(9));
    var s2 := Apply(s1, Arrived([1, 2]));
    var s3 := Apply(s2, ConnectionFailed(TimedOut));
    var s4 := Apply(s3, SlotReused);
    var e4 := ReadPolled(0, 9, NothingYet);
    RunOfOne(s4, e4);
    assert [SlotReused, e4][1..] == [e4];
    assert [ConnectionFailed(TimedOut), SlotReused, e4][1..] == [SlotReused, e4];
    assert [Arrived([1, 2]), ConnectionFailed(TimedOut), SlotReused, e4][1..] == [ConnectionFailed(TimedOut), SlotReused, e4];
    assert [ReadCalled(9), Arrived([1, 2]), ConnectionFailed(TimedOut), SlotReused, e4][1..]
        == [Arrived([1, 2]), ConnectionFailed(TimedOut), SlotReused, e4];
  }

  lemma RunOfOne(s: Receiver, e: RecvEvent)
    requires Enabled(s, e)
    ensures IsRun(s, [e]) && After(s, [e]) == Apply(s, e)
  {
    assert [e][1..] == [];
  }

  /** A read that is cancelled, or polled and left parked, has consumed nothing. */
  lemma CancelledReadsTakeNothing(s: Receiver, e: RecvEvent)
    requires ReceiverInv(s) && Enabled(s, e)
    requires e.ReadCancelled? || (e.ReadPolled? && e.id in Apply(s, e).parked)
    ensures Apply(s, e).noq == s.noq && Apply(s, e).returned == s.returned && Apply(s, e).results == s.results
  {
  }

  /** A poll's answer, from the state of the stream: first whether its connection is
      still in its slot, then whether the stream's state went down, then a reset,
      then unread bytes, then the FIN, and only then the connection's failure. With
      none of these it stays parked, and takes nothing. */
  lemma PollsTellTheStream(s: Receiver, id: nat, max: nat, answer: ReadAnswer)
    requires ReceiverInv(s) && Enabled(s, ReadPolled(id, max, answer))
    ensures
      var r, t, n := PollResult(s, answer), Apply(s, ReadPolled(id, max, answer)), s.noq;
      && (s.gone ==> r == Some(Failed(Closed)))
      && (!s.gone && n.torn ==> s.failure.Some? && r == Some(Failed(s.failure.value)))
      && (!s.gone && !n.torn && n.reset.Some? ==> r == Some(Failed(Reset(n.reset.value))))
      && (!s.gone && !n.torn && n.reset == None && n.taken < |n.bytes| ==>
            exists k :: 0 < k <= max && n.taken + k <= |n.bytes| && r == Some(Bytes(n.bytes[n.taken..][..k])))
      && (!s.gone && !n.torn && n.reset == None && n.taken == |n.bytes| ==>
            r == if n.fin then Some(CleanEnd) else if s.failure.Some? then Some(Failed(s.failure.value)) else None)
      && (r == None ==> t == s)
      && (r.Some? ==> t.parked == {} && t.results == s.results + [r.value] && !t.reader.reading
                      && t.reader.terminal == if r.value.Bytes? then None else r)
      && (t.noq.spent <==> !s.gone && !n.torn && (n.reset.Some? || (n.taken == |n.bytes| && n.fin)))
  {
    assert s.reader.terminal == None && s.parked - {id} == {};
    if !s.gone && answer.Chunk? {
      assert s.noq.bytes[s.noq.taken..s.noq.taken + answer.n] == s.noq.bytes[s.noq.taken..][..answer.n];
    }
  }

  /** The first outcome of a poll that is not bytes is the result of every later call. */
  lemma FirstOutcomeStands(s: Receiver, e: RecvEvent, es: seq<RecvEvent>)
    requires ReceiverInv(s) && Enabled(s, e) && e.ReadPolled? && IsRun(Apply(s, e), es)
    ensures
      var r, t := PollResult(s, e.answer), After(Apply(s, e), es);
      r.Some? && !r.value.Bytes? ==>
        forall i :: |s.results| <= i < |t.results| ==> t.results[i] == r.value
  {
    StepKeepsInv(s, e);
    PollsTellTheStream(s, e.id, e.max, e.answer);
    var r, m := PollResult(s, e.answer), Apply(s, e);
    hide ReceiverInv, Apply, Enabled, PollResult;
    if r.Some? && !r.value.Bytes? {
      TerminalRepeats(m, es);
      assert m.results[|s.results|] == r.value;
      assert forall i :: 0 <= i < |m.results| ==> After(m, es).results[i] == m.results[i];
    }
  }

  /** What a call of `read` answers at once: refused once `read-via-stream` took the
      bytes, or under a read in flight; the latched outcome; nothing for nothing. */
  lemma CallsAnswerAtOnce(r: Reader, max: nat)
    ensures
      var (q, now) := BeginRead(r, max);
      && (now == None <==> !r.streaming && r.terminal == None && max > 0 && !r.reading)
      && (r.streaming ==> now == Some(Failed(InUse)))
      && (!r.streaming && r.terminal.Some? ==> now == r.terminal)
      && (!r.streaming && r.terminal == None && max == 0 ==> now == Some(Bytes([])))
      && (!r.streaming && r.terminal == None && max > 0 && r.reading ==> now == Some(Failed(InUse)))
      && q == r.(reading := q.reading) && (q.reading <==> r.reading || now == None)
  {
  }

  /** A refusal noq never makes of an ordered reader would be reported as such. */
  lemma OutOfOrderIsReported(n: NoqRecv, error: Option<Error>)
    ensures ReadSome(n, Present(error), Unordered) == (n, Some(Failed(Other)))
  {
  }
}

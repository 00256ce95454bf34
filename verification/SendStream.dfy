/** The send half of a stream: the single-writer guard, multi-pass writes,
    `finish` and `reset` (endpoint/src/endpoint_impl.rs). */
module SendStreams {
  import opened Types

  /** noq's send stream: the bytes it took, in order, and how it was ended. */
  datatype NoqSend = NoqSend(committed: seq<byte>, fin: bool, reset: bool)

  /** The resource's own flags. */
  datatype Flags = Flags(streaming: bool, writing: bool, ended: bool)

  /** noq's answer to one `write`, and to `finish`. */
  datatype WriteAnswer = Written(n: nat) | Blocked | Stopped(code: nat) | ClosedStream
  datatype FinishAnswer = FinTaken | FinStopped(code: nat) | FinClosed

  datatype Done = Ok | Err(error: Error)

  /** noq takes no bytes after a FIN or a reset, and never more than it is given. */
  predicate AnswersFit(ended: bool, remaining: nat, answers: seq<WriteAnswer>)
    decreases |answers|
  {
    answers != [] && answers[0].Written? ==>
      && answers[0].n <= remaining && (ended ==> answers[0].n == 0)
      && AnswersFit(ended, remaining - answers[0].n, answers[1..])
  }

  // ----- the operations -----

  /** One pass of `write_all`; when `answers` run out the stream is blocked. */
  function Pass(n: NoqSend, bytes: seq<byte>, offset: nat, answers: seq<WriteAnswer>): (NoqSend, nat, Option<Done>)
    requires offset <= |bytes| && AnswersFit(n.fin || n.reset, |bytes| - offset, answers)
    decreases |answers|
  {
    if answers == [] then (n, offset, None)
    else
      match answers[0]
      case Written(k) =>
        var n1 := n.(committed := n.committed + bytes[offset..offset + k]);
        if offset + k == |bytes| then (n1, offset + k, Some(Ok))
        else if k == 0 then (n1, offset, None)
        else Pass(n1, bytes, offset + k, answers[1..])
      case Blocked => (n, offset, None)
      case Stopped(code) => (n, offset, Some(Err(Reset(code))))
      case ClosedStream => (n, offset, Some(Err(Closed)))
  }

  lemma SliceJoins(bytes: seq<byte>, i: nat, j: nat, k: nat)
    requires i <= j <= k <= |bytes|
    ensures bytes[i..j] + bytes[j..k] == bytes[i..k]
  {
  }

  /** A pass commits exactly the bytes it advances over; it ends well only at the end. */
  lemma {:induction false} PassCommits(n: NoqSend, bytes: seq<byte>, offset: nat, answers: seq<WriteAnswer>)
    requires offset <= |bytes| && AnswersFit(n.fin || n.reset, |bytes| - offset, answers)
    ensures
      var (m, end, done) := Pass(n, bytes, offset, answers);
      && offset <= end <= |bytes|
      && m == n.(committed := n.committed + bytes[offset..end])
      && (done == Some(Ok) ==> end == |bytes|)
      && (n.fin || n.reset ==> end == offset)
    decreases |answers|
  {
    assert bytes[offset..offset] == [] && n.committed + [] == n.committed;
    if answers != [] && answers[0].Written? {
      var k := answers[0].n;
      var n1 := n.(committed := n.committed + bytes[offset..offset + k]);
      if offset + k != |bytes| && k != 0 {
        PassCommits(n1, bytes, offset + k, answers[1..]);
        var end := Pass(n1, bytes, offset + k, answers[1..]).1;
        assert bytes[offset..offset + k] + bytes[offset + k..end] == bytes[offset..end];
      }
    }
  }

  /** The bytes these answers took. */
  function Given(answers: seq<WriteAnswer>): nat {
    if answers == [] then 0
    else (if answers[0].Written? then answers[0].n else 0) + Given(answers[1..])
  }

  /** The first `i` answers each take bytes and leave some of `remaining`; the next
      one, if there is one, does not. */
  ghost predicate StopsAt(remaining: nat, answers: seq<WriteAnswer>, i: nat) {
    && i <= |answers|
    && (forall j :: 0 <= j < i ==> answers[j].Written? && answers[j].n > 0)
    && (i > 0 ==> Given(answers[..i]) < remaining)
    && (i < |answers| && answers[i].Written? && answers[i].n > 0 ==> Given(answers[..i]) + answers[i].n >= remaining)
  }

  /** A pass ends where noq's answers first stop the flow: well exactly when they took
      the whole payload; in an error exactly when noq says the peer stopped the
      stream, with its code, or that the stream is closed; and parked on all else. */
  lemma {:induction false} PassEndsByItsAnswer(n: NoqSend, bytes: seq<byte>, offset: nat, answers: seq<WriteAnswer>) returns (i: nat)
    requires offset <= |bytes| && AnswersFit(n.fin || n.reset, |bytes| - offset, answers)
    ensures StopsAt(|bytes| - offset, answers, i)
    ensures
      var (_, end, done) := Pass(n, bytes, offset, answers);
      && (i == |answers| ==> end == offset + Given(answers[..i]))
      && (i < |answers| ==> end == offset + Given(answers[..i]) + if answers[i].Written? then answers[i].n else 0)
      && (done == Some(Ok) <==> i < |answers| && answers[i].Written? && end == |bytes|)
      && (forall code :: done == Some(Err(Reset(code))) <==> i < |answers| && answers[i] == Stopped(code))
      && (done == Some(Err(Closed)) <==> i < |answers| && answers[i].ClosedStream?)
      && (done.Some? && done.value.Err? ==> done.value.error == Closed || done.value.error.Reset?)
    decreases |answers|
  {
    if answers != [] && answers[0].Written? && answers[0].n > 0 && offset + answers[0].n != |bytes| {
      var k := answers[0].n;
      var n1 := n.(committed := n.committed + bytes[offset..offset + k]);
      var i1 := PassEndsByItsAnswer(n1, bytes, offset + k, answers[1..]);
      i := i1 + 1;
      assert answers[..i][1..] == answers[1..][..i1];
      assert forall j :: 1 <= j < i ==> answers[j] == answers[1..][j - 1];
    } else {
      i := 0;
    }
  }

  /** `write` and `write_via_stream` admit one caller at a time; the latter takes the stream for good. */
  function Admit(f: Flags, via: bool): (Flags, bool) {
    if f.streaming || f.writing then (f, false)
    else (Flags(via, true, f.ended), true)
  }

  function Unclaim(f: Flags): Flags { f.(writing := false) }

  function DoFinish(f: Flags, n: NoqSend, entry: Entry, answer: FinishAnswer): (Flags, NoqSend, Done) {
    var f1 := f.(ended := true);
    if entry.Gone? then (f1, n, Err(Closed))
    else if entry.error.Some? then (f1, n, Err(entry.error.value))
    else
      match answer
      case FinTaken => (f1, n.(fin := true), Ok)
      case FinStopped(code) => (f1, n, Err(Reset(code)))
      case FinClosed => (f1, n, Err(Closed))
  }

  function Finish(f: Flags, n: NoqSend, entry: Entry, answer: FinishAnswer): (Flags, NoqSend, Done) {
    if f.streaming || f.writing then (f, n, Err(InUse)) else DoFinish(f, n, entry, answer)
  }

  /** `do_finish` gets as far as noq taking the FIN, and then kicks the pump. */
  predicate FinishKicks(entry: Entry, answer: FinishAnswer) {
    entry.Present? && entry.error == None && answer.FinTaken?
  }

  function ResetStream(f: Flags, n: NoqSend, entry: Entry): (Flags, NoqSend) {
    (f.(ended := true), if entry.Gone? then n else n.(reset := true))
  }

  /** The resource drops: a stream not yet ended is reset. */
  function Dropped(f: Flags, n: NoqSend, entry: Entry): (Flags, NoqSend) {
    if f.ended then (f, n) else ResetStream(f, n, entry)
  }

  /** The resource and, under it, noq's stream. */
  class SendStreamRes {
    var streaming: bool
    var writing: bool
    var ended: bool
    var noq: NoqSend

    constructor ()
      ensures CurrentFlags() == Flags(false, false, false) && noq == NoqSend([], false, false)
    {
      streaming, writing, ended := false, false, false;
      noq := NoqSend([], false, false);
    }

    function CurrentFlags(): Flags
      reads this
    {
      Flags(streaming, writing, ended)
    }

    method BeginWrite(via: bool) returns (admitted: bool)
      modifies this
      ensures (CurrentFlags(), admitted) == Admit(old(CurrentFlags()), via) && noq == old(noq)
    {
      if streaming {
        return false;
      }
      if writing {
        return false;
      }
      writing := true;
      if via {
        streaming := true;
      }
      return true;
    }

    method EndWrite()
      modifies this`writing
      ensures CurrentFlags() == Unclaim(old(CurrentFlags()))
    {
      writing := false;
    }

    /** One poll of `write_all` with the connection present and sound: passes
        until the payload is done, noq blocks, or the stream has failed. */
    method WritePass(bytes: seq<byte>, start: nat, answers: seq<WriteAnswer>)
      returns (offset: nat, outcome: Option<Done>, kick: bool)
      requires start <= |bytes| && AnswersFit(noq.fin || noq.reset, |bytes| - start, answers)
      modifies this`noq
      ensures (noq, offset, outcome) == Pass(old(noq), bytes, start, answers)
      ensures kick == (offset > start) == (noq.committed != old(noq).committed)
    {
      offset := start;
      outcome := None;
      var i := 0;
      PassCommits(noq, bytes, start, answers);
      while i < |answers|
        invariant 0 <= i <= |answers| && start <= offset <= |bytes| && outcome == None
        invariant AnswersFit(noq.fin || noq.reset, |bytes| - offset, answers[i..])
        invariant Pass(noq, bytes, offset, answers[i..]) == Pass(old(noq), bytes, start, answers)
        invariant noq.committed == old(noq).committed + bytes[start..offset]
      {
        var answer := answers[i];
        assert answers[i..][1..] == answers[i + 1..];
        i := i + 1;
        if answer.Written? {
          noq := noq.(committed := noq.committed + bytes[offset..offset + answer.n]);
          SliceJoins(bytes, start, offset, offset + answer.n);
          offset := offset + answer.n;
          if offset == |bytes| {
            outcome := Some(Ok);
            break;
          }
          if answer.n == 0 {
            break;
          }
        } else if answer.Blocked? {
          break;
        } else if answer.Stopped? {
          outcome := Some(Err(Reset(answer.code)));
          break;
        } else {
          outcome := Some(Err(Closed));
          break;
        }
      }
      kick := offset > start;
    }

    /** `kick`: noq took a FIN, and the pump is told to send it. */
    method FinishCall(entry: Entry, answer: FinishAnswer) returns (done: Done, kick: bool)
      modifies this
      ensures (CurrentFlags(), noq, done) == Finish(old(CurrentFlags()), old(noq), entry, answer)
      ensures kick == (!old(streaming) && !old(writing) && FinishKicks(entry, answer))
    {
      if streaming {
        return Err(InUse), false;
      }
      if writing {
        return Err(InUse), false;
      }
      done, kick := FinishClaimed(entry, answer);
    }

    method FinishClaimed(entry: Entry, answer: FinishAnswer) returns (done: Done, kick: bool)
      modifies this
      ensures (CurrentFlags(), noq, done) == DoFinish(old(CurrentFlags()), old(noq), entry, answer)
      ensures kick == FinishKicks(entry, answer)
    {
      ended := true;
      if entry.Gone? {
        return Err(Closed), false;
      }
      if entry.error.Some? {
        return Err(entry.error.value), false;
      }
      match answer {
        case FinTaken =>
          noq := noq.(fin := true);
          return Ok, true;
        case FinStopped(code) => return Err(Reset(code)), false;
        case FinClosed => return Err(Closed), false;
      }
    }

    method ResetCall(entry: Entry) returns (kick: bool)
      modifies this
      ensures (CurrentFlags(), noq) == ResetStream(old(CurrentFlags()), old(noq), entry)
      ensures kick == entry.Present?
    {
      ended := true;
      if entry.Gone? {
        return false;
      }
      noq := noq.(reset := true);
      return true;
    }

    /** The drop contract: an unfinished, un-reset stream is reset. */
    method Drop(entry: Entry) returns (kick: bool)
      modifies this
      ensures (CurrentFlags(), noq) == Dropped(old(CurrentFlags()), old(noq), entry)
      ensures kick == (!old(ended) && entry.Present?)
    {
      kick := false;
      if !ended {
        kick := ResetCall(entry);
      }
    }
  }

  // ----- the machine: every write that is in flight, and those that ended -----

  /** `data` is the payload given so far; `last` says no more will come. A
      plain write has it all from the start. */
  datatype Write = Write(data: seq<byte>, offset: nat, via: bool, last: bool)

  /** `result` is what the write returned, if it was not cancelled. */
  datatype Finished = Finished(data: seq<byte>, offset: nat, result: Option<Done>)

  /** `done` lists the admitted writes that ended, in the order they did;
      `finished` what had been committed when the FIN was issued. */
  datatype Sender = Sender(
    flags: Flags,
    noq: NoqSend,
    inFlight: map<nat, Write>,
    nextWrite: nat,
    done: seq<Finished>,
    finished: Option<seq<byte>>)

  function NewSender(): Sender {
    Sender(Flags(false, false, false), NoqSend([], false, false), map[], 0, [], None)
  }

  datatype SendEvent =
    | WriteCalled(data: seq<byte>)
    | ViaCalled
    | WritePolled(id: nat, entry: Entry, answers: seq<WriteAnswer>)
    | ViaRead(id: nat, buf: seq<byte>, last: bool)
    | ViaFinished(id: nat, entry: Entry, answer: FinishAnswer)
    | WriteCancelled(id: nat)
    | FinishCalled(entry: Entry, answer: FinishAnswer)
    | ResetCalled(entry: Entry)

  /** noq issues a FIN at most once and not after a reset. */
  predicate FinFits(n: NoqSend, answer: FinishAnswer) { answer.FinTaken? ==> !n.fin && !n.reset }

  predicate Enabled(s: Sender, e: SendEvent) {
    match e
    case WriteCalled(_) => true
    case ViaCalled => true
    case WritePolled(id, entry, answers) =>
      && id in s.inFlight && s.inFlight[id].offset <= |s.inFlight[id].data|
      && (s.inFlight[id].via ==> s.inFlight[id].offset < |s.inFlight[id].data|)
      && AnswersFit(s.noq.fin || s.noq.reset, |s.inFlight[id].data| - s.inFlight[id].offset, answers)
    case ViaRead(id, _, _) =>
      id in s.inFlight && s.inFlight[id].via && !s.inFlight[id].last && s.inFlight[id].offset == |s.inFlight[id].data|
    case ViaFinished(id, _, answer) =>
      && id in s.inFlight && s.inFlight[id].via && s.inFlight[id].last
      && s.inFlight[id].offset == |s.inFlight[id].data| && FinFits(s.noq, answer)
    case WriteCancelled(id) => id in s.inFlight
    case FinishCalled(_, answer) => FinFits(s.noq, answer)
    case ResetCalled(_) => true
  }

  /** A write leaves, with or without success, and its claim with it. */
  function End(s: Sender, id: nat, result: Option<Done>): Sender
    requires id in s.inFlight
  {
    var w := s.inFlight[id];
    s.(flags := Unclaim(s.flags), inFlight := s.inFlight - {id}, done := s.done + [Finished(w.data, w.offset, result)])
  }

  function Begin(s: Sender, data: seq<byte>, via: bool): Sender {
    var (flags, admitted) := Admit(s.flags, via);
    if !admitted then s
    else s.(flags := flags, inFlight := s.inFlight[s.nextWrite := Write(data, 0, via, !via)], nextWrite := s.nextWrite + 1)
  }

  function Issued(s: Sender, next: (Flags, NoqSend, Done)): Sender {
    s.(flags := next.0, noq := next.1, finished := if next.1.fin && !s.noq.fin then Some(s.noq.committed) else s.finished)
  }

  function Apply(s: Sender, e: SendEvent): Sender
    requires Enabled(s, e)
  {
    match e
    case WriteCalled(data) => Begin(s, data, false)
    case ViaCalled => Begin(s, [], true)
    case WritePolled(id, entry, answers) =>
      if entry.Gone? then End(s, id, Some(Err(Closed)))
      else if entry.error.Some? then End(s, id, Some(Err(entry.error.value)))
      else
        var w := s.inFlight[id];
        PassCommits(s.noq, w.data, w.offset, answers);
        var (noq, offset, outcome) := Pass(s.noq, w.data, w.offset, answers);
        var s1 := s.(noq := noq, inFlight := s.inFlight[id := w.(offset := offset)]);
        if outcome == None || (outcome == Some(Ok) && w.via) then s1 else End(s1, id, outcome)
    case ViaRead(id, buf, last) =>
      var w := s.inFlight[id];
      s.(inFlight := s.inFlight[id := w.(data := w.data + buf, last := last)])
    case ViaFinished(id, entry, answer) =>
      var next := DoFinish(s.flags, s.noq, entry, answer);
      End(Issued(s, next), id, Some(next.2))
    case WriteCancelled(id) => End(s, id, None)
    case FinishCalled(entry, answer) => Issued(s, Finish(s.flags, s.noq, entry, answer))
    case ResetCalled(entry) =>
      var (flags, noq) := ResetStream(s.flags, s.noq, entry);
      s.(flags := flags, noq := noq)
  }

  // ----- what every step keeps -----

  /** The prefixes the ended writes committed, in order. */
  function Prefixes(done: seq<Finished>): seq<byte>
  {
    if done == [] then []
    else
      var f := done[|done| - 1];
      Prefixes(done[..|done| - 1]) + if f.offset <= |f.data| then f.data[..f.offset] else []
  }

  /** At most one write in flight, exactly when the claim is taken. */
  ghost predicate OneWriter(s: Sender) {
    && (forall i, j :: i in s.inFlight && j in s.inFlight ==> i == j)
    && (s.flags.writing <==> s.inFlight.Keys != {})
    && (forall i :: i in s.inFlight ==> i < s.nextWrite && s.inFlight[i].offset <= |s.inFlight[i].data|)
    && (forall i :: i in s.inFlight ==> s.inFlight[i].via == s.flags.streaming)
  }

  /** The stream holds one prefix per admitted write, in order of admission; the
      whole payload of each that returned ok. */
  ghost predicate ByteExact(s: Sender) {
    && (s.inFlight.Keys == {} ==> s.noq.committed == Prefixes(s.done))
    && (forall i :: i in s.inFlight && s.inFlight[i].offset <= |s.inFlight[i].data| ==>
          s.noq.committed == Prefixes(s.done) + s.inFlight[i].data[..s.inFlight[i].offset])
    && (forall k :: 0 <= k < |s.done| ==>
          s.done[k].offset <= |s.done[k].data| && (s.done[k].result == Some(Ok) ==> s.done[k].offset == |s.done[k].data|))
  }

  /** Nothing follows the FIN. */
  ghost predicate FinIsLast(s: Sender) {
    s.noq.fin ==> s.finished == Some(s.noq.committed)
  }

  ghost predicate SenderInv(s: Sender) {
    OneWriter(s) && ByteExact(s) && FinIsLast(s)
  }

  lemma AppendPrefix(done: seq<Finished>, f: Finished)
    requires f.offset <= |f.data|
    ensures Prefixes(done + [f]) == Prefixes(done) + f.data[..f.offset]
  {
    assert (done + [f])[..|done|] == done;
  }

  lemma EndKeeps(s: Sender, id: nat, result: Option<Done>)
    requires SenderInv(s) && id in s.inFlight
    requires result == Some(Ok) ==> s.inFlight[id].offset == |s.inFlight[id].data|
    ensures SenderInv(End(s, id, result))
  {
    var w := s.inFlight[id];
    AppendPrefix(s.done, Finished(w.data, w.offset, result));
    assert End(s, id, result).inFlight.Keys == {};
  }

  /** A write's next bytes, or a larger payload. */
  lemma ProgressKeeps(s: Sender, id: nat, noq: NoqSend, w: Write)
    requires SenderInv(s) && id in s.inFlight
    requires w.via == s.inFlight[id].via && s.inFlight[id].offset <= w.offset <= |w.data|
    requires s.inFlight[id].data <= w.data
    requires noq == s.noq.(committed := s.noq.committed + w.data[s.inFlight[id].offset..w.offset])
    requires s.noq.fin ==> w.offset == s.inFlight[id].offset
    ensures SenderInv(s.(noq := noq, inFlight := s.inFlight[id := w]))
  {
    var before := s.inFlight[id];
    assert before.data[..before.offset] + w.data[before.offset..w.offset] == w.data[..w.offset];
    if s.noq.fin {
      assert w.data[before.offset..w.offset] == [];
    }
    hide Prefixes;
    var t := s.(noq := noq, inFlight := s.inFlight[id := w]);
    assert OneWriter(t);
    assert ByteExact(t) by {
      assert Prefixes(s.done) + before.data[..before.offset] + w.data[before.offset..w.offset]
          == Prefixes(s.done) + (before.data[..before.offset] + w.data[before.offset..w.offset]);
    }
    assert FinIsLast(t) by {
      assert s.noq.committed + [] == s.noq.committed;
    }
    hide OneWriter, ByteExact, FinIsLast;
  }

  lemma StepKeepsInv(s: Sender, e: SendEvent)
    requires SenderInv(s) && Enabled(s, e)
    ensures SenderInv(Apply(s, e))
  {
    match e
    case WriteCalled(data) => BeginKeeps(s, data, false);
    case ViaCalled => BeginKeeps(s, [], true);
    case WritePolled(id, entry, answers) => PollKeeps(s, id, entry, answers);
    case ViaRead(id, buf, last) =>
      var w := s.inFlight[id];
      assert s.noq == s.noq.(committed := s.noq.committed + (w.data + buf)[w.offset..w.offset]);
      ProgressKeeps(s, id, s.noq, w.(data := w.data + buf, last := last));
    case ViaFinished(id, entry, answer) =>
      EndKeeps(Issued(s, DoFinish(s.flags, s.noq, entry, answer)), id, Some(DoFinish(s.flags, s.noq, entry, answer).2));
    case WriteCancelled(id) => EndKeeps(s, id, None);
    case FinishCalled(entry, answer) =>
    case ResetCalled(entry) =>
  }

  lemma BeginKeeps(s: Sender, data: seq<byte>, via: bool)
    requires SenderInv(s)
    ensures SenderInv(Begin(s, data, via))
  {
    assert data[..0] == [] && Prefixes(s.done) + [] == Prefixes(s.done);
    assert Begin(s, data, via) != s ==> s.nextWrite in Begin(s, data, via).inFlight;
  }

  lemma PollKeeps(s: Sender, id: nat, entry: Entry, answers: seq<WriteAnswer>)
    requires SenderInv(s) && Enabled(s, WritePolled(id, entry, answers))
    ensures SenderInv(Apply(s, WritePolled(id, entry, answers)))
  {
    hide SenderInv;
    if entry.Gone? {
      EndKeeps(s, id, Some(Err(Closed)));
    } else if entry.error.Some? {
      EndKeeps(s, id, Some(Err(entry.error.value)));
    } else {
      var w := s.inFlight[id];
      PassCommits(s.noq, w.data, w.offset, answers);
      var (noq, offset, outcome) := Pass(s.noq, w.data, w.offset, answers);
      ProgressKeeps(s, id, noq, w.(offset := offset));
      if !(outcome == None || (outcome == Some(Ok) && w.via)) {
        EndKeeps(s.(noq := noq, inFlight := s.inFlight[id := w.(offset := offset)]), id, outcome);
      }
    }
  }

  ghost predicate IsRun(s: Sender, es: seq<SendEvent>)
    decreases |es|
  {
    es == [] || (Enabled(s, es[0]) && IsRun(Apply(s, es[0]), es[1..]))
  }

  ghost function After(s: Sender, es: seq<SendEvent>): Sender
    requires IsRun(s, es)
    decreases |es|
  {
    if es == [] then s else After(Apply(s, es[0]), es[1..])
  }

  lemma {:induction false} RunKeepsInv(s: Sender, es: seq<SendEvent>)
    requires SenderInv(s) && IsRun(s, es)
    ensures SenderInv(After(s, es))
    decreases |es|
  {
    hide SenderInv, Enabled, Apply;
    if es != [] {
      StepKeepsInv(s, es[0]);
      RunKeepsInv(Apply(s, es[0]), es[1..]);
    }
  }

  /** Over every run: the committed bytes are the in-order prefixes of the
      admitted writes, a write that returned ok contributed all of its payload,
      and the FIN, once issued, ends them. */
  lemma StreamIsExact(es: seq<SendEvent>)
    requires IsRun(NewSender(), es)
    ensures SenderInv(After(NewSender(), es))
  {
    RunKeepsInv(NewSender(), es);
  }

  /** `finish` issues no FIN while a write is in flight; `write_via_stream`'s own
      comes after its whole payload. */
  lemma NoFinUnderAWrite(s: Sender, e: SendEvent)
    requires SenderInv(s) && Enabled(s, e)
    requires !s.noq.fin && Apply(s, e).noq.fin
    ensures e.FinishCalled? ==> s.inFlight.Keys == {}
    ensures e.FinishCalled? || e.ViaFinished?
    ensures e.ViaFinished? ==>
      && s.inFlight.Keys == {e.id}
      && s.inFlight[e.id].last && s.inFlight[e.id].offset == |s.inFlight[e.id].data|
    ensures Apply(s, e).noq.committed == s.noq.committed
  {
    if e.WritePolled? && e.entry.Present? && e.entry.error == None {
      PassCommits(s.noq, s.inFlight[e.id].data, s.inFlight[e.id].offset, e.answers);
    }
  }

  // ----- what ends a write -----

  /** The answer a pass stops at ends the write, with this result. */
  predicate StopCauses(w: Write, answer: WriteAnswer, taken: nat, result: Option<Done>) {
    match answer
    case Stopped(code) => result == Some(Err(Reset(code)))
    case ClosedStream => result == Some(Err(Closed))
    case Written(n) => !w.via && result == Some(Ok) && taken + n == |w.data|
    case Blocked => false
  }

  /** The cause of a write's end and its result: cancelled; its connection's slot
      gone or reused, or its connection failed, with that failure; noq's own refusal;
      or the whole payload taken. A `write_via_stream` ends well by its FIN alone. */
  ghost predicate Causes(s: Sender, e: SendEvent, id: nat, result: Option<Done>)
    requires id in s.inFlight
  {
    var w := s.inFlight[id];
    match e
    case WriteCancelled(i) => i == id && result == None
    case WritePolled(i, Gone, _) => i == id && result == Some(Err(Closed))
    case WritePolled(i, Present(Some(error)), _) => i == id && result == Some(Err(error))
    case WritePolled(i, Present(None), answers) =>
      && i == id && w.offset <= |w.data|
      && exists k: nat :: StopsAt(|w.data| - w.offset, answers, k) && k < |answers|
                     && StopCauses(w, answers[k], w.offset + Given(answers[..k]), result)
    case ViaFinished(i, Gone, _) => i == id && result == Some(Err(Closed))
    case ViaFinished(i, Present(Some(error)), _) => i == id && result == Some(Err(error))
    case ViaFinished(i, Present(None), answer) =>
      && i == id
      && (match answer
          case FinTaken => result == Some(Ok)
          case FinStopped(code) => result == Some(Err(Reset(code)))
          case FinClosed => result == Some(Err(Closed)))
    case _ => false
  }

  /** A write in flight ends exactly for a cause, with that result; without one it
      stays in flight, parked. */
  lemma WriteEndsForACause(s: Sender, e: SendEvent, id: nat)
    requires SenderInv(s) && Enabled(s, e) && id in s.inFlight
    ensures var t := Apply(s, e);
      if id in t.inFlight then t.done == s.done && forall result :: !Causes(s, e, id, result)
      else |t.done| == |s.done| + 1 && t.done[..|s.done|] == s.done && Causes(s, e, id, t.done[|s.done|].result)
  {
    hide ByteExact, FinIsLast;
    if e.WritePolled? && e.entry.Present? && e.entry.error == None {
      PassEndsForACause(s, e, id);
      hide Pass, Causes, StopsAt, Given;
    } else {
      hide Pass, StopsAt, Given;
    }
  }

  lemma PassEndsForACause(s: Sender, e: SendEvent, id: nat)
    requires OneWriter(s) && Enabled(s, e) && id in s.inFlight
    requires e.WritePolled? && e.entry == Present(None)
    ensures
      var w := s.inFlight[id];
      var outcome := Pass(s.noq, w.data, w.offset, e.answers).2;
      if outcome == None || (outcome == Some(Ok) && w.via) then forall result :: !Causes(s, e, id, result)
      else Causes(s, e, id, outcome)
  {
    assert e.id == id;
    var w := s.inFlight[id];
    var k := PassEndsByItsAnswer(s.noq, w.data, w.offset, e.answers);
    OneStop(|w.data| - w.offset, e.answers, k);
    hide Pass, StopsAt, Given, AnswersFit;
    var outcome := Pass(s.noq, w.data, w.offset, e.answers).2;
    if outcome.Some? && outcome.value.Err? && outcome.value.error.Reset? {
      assert e.answers[k] == Stopped(outcome.value.error.code);
    }
    if outcome.Some? {
      assert k < |e.answers| && (StopCauses(w, e.answers[k], w.offset + Given(e.answers[..k]), outcome) || w.via);
    }
  }

  lemma OneStop(remaining: nat, answers: seq<WriteAnswer>, i: nat)
    requires StopsAt(remaining, answers, i)
    ensures forall j: nat :: StopsAt(remaining, answers, j) ==> j == i
  {
    forall j: nat | StopsAt(remaining, answers, j) ensures j == i {
      if i < j {
        GivenSnoc(answers, i);
        GivenGrows(answers, i + 1, j);
      } else if j < i {
        GivenSnoc(answers, j);
        GivenGrows(answers, j + 1, i);
      }
    }
  }

  lemma {:induction false} GivenSnoc(answers: seq<WriteAnswer>, i: nat)
    requires i < |answers|
    ensures Given(answers[..i + 1]) == Given(answers[..i]) + if answers[i].Written? then answers[i].n else 0
  {
    if i > 0 {
      GivenSnoc(answers[1..], i - 1);
      assert answers[..i + 1][1..] == answers[1..][..i] && answers[..i][1..] == answers[1..][..i - 1];
    }
  }

  lemma {:induction false} GivenGrows(answers: seq<WriteAnswer>, i: nat, j: nat)
    requires i <= j <= |answers|
    ensures Given(answers[..i]) <= Given(answers[..j])
    decreases j - i
  {
    if i < j {
      GivenSnoc(answers, i);
      GivenGrows(answers, i + 1, j);
    }
  }

  lemma StepEndsAtMostOne(s: Sender, e: SendEvent)
    requires SenderInv(s) && Enabled(s, e)
    ensures var t := Apply(s, e);
      || t.done == s.done
      || (|t.done| == |s.done| + 1 && t.done[..|s.done|] == s.done
          && exists id :: id in s.inFlight && Causes(s, e, id, t.done[|s.done|].result))
  {
    hide ByteExact, FinIsLast, Pass, Causes;
    if id :| id in s.inFlight {
      WriteEndsForACause(s, e, id);
      assert id in Apply(s, e).inFlight || Causes(s, e, id, Apply(s, e).done[|s.done|].result);
    }
  }

  /** Over every run, each write that ended has its cause in the run: an event of
      that moment, with the result that event gives. */
  lemma {:induction false} EveryEndHasItsCause(s: Sender, es: seq<SendEvent>, k: nat) returns (j: nat, id: nat)
    requires SenderInv(s) && IsRun(s, es) && |s.done| <= k < |After(s, es).done|
    ensures j < |es| && IsRun(s, es[..j]) && id in After(s, es[..j]).inFlight
    ensures |After(s, es[..j]).done| == k && Causes(After(s, es[..j]), es[j], id, After(s, es).done[k].result)
    ensures After(s, es).done[..|s.done|] == s.done
    decreases |es|
  {
    hide SenderInv, Enabled, Apply, Causes;
    var t := Apply(s, es[0]);
    StepKeepsInv(s, es[0]);
    StepEndsAtMostOne(s, es[0]);
    DoneGrows(t, es[1..]);
    if |t.done| > k {
      j := 0;
      id :| id in s.inFlight && Causes(s, es[0], id, t.done[|s.done|].result);
      assert After(s, es).done[k] == t.done[k];
    } else {
      var j1;
      j1, id := EveryEndHasItsCause(t, es[1..], k);
      j := j1 + 1;
      assert es[..j][0] == es[0] && es[..j][1..] == es[1..][..j1];
    }
  }

  lemma {:induction false} DoneGrows(s: Sender, es: seq<SendEvent>)
    requires SenderInv(s) && IsRun(s, es)
    ensures s.done <= After(s, es).done
    decreases |es|
  {
    hide SenderInv, Enabled, Apply, Causes;
    if es != [] {
      StepKeepsInv(s, es[0]);
      StepEndsAtMostOne(s, es[0]);
      DoneGrows(Apply(s, es[0]), es[1..]);
    }
  }

  // ----- admission, finish, drop -----

  /** A write is admitted exactly when none is in flight and no `write_via_stream`
      has taken the stream, ended or not; a refused one changes nothing. */
  lemma AdmittedIffIdle(s: Sender, e: SendEvent)
    requires SenderInv(s) && (e.WriteCalled? || e.ViaCalled?)
    ensures var t := Apply(s, e);
      if s.inFlight.Keys == {} && !s.flags.streaming then
        && t.inFlight == map[s.nextWrite := Write(if e.WriteCalled? then e.data else [], 0, e.ViaCalled?, e.WriteCalled?)]
        && t.flags.streaming == e.ViaCalled? && t.flags.ended == s.flags.ended && t.noq == s.noq
      else t == s
  {
  }

  lemma TakenForGood(s: Sender, e: SendEvent)
    requires Enabled(s, e) && s.flags.streaming
    ensures Apply(s, e).flags.streaming
  {
    hide Pass;
  }

  /** `finish` is refused, with no effect, while a write is in flight or the stream is
      taken; it answers well exactly when the FIN goes out, and otherwise says what is
      wrong: the slot, the connection's failure, or noq's refusal. */
  lemma FinishAnswers(s: Sender, entry: Entry, answer: FinishAnswer)
    requires SenderInv(s) && FinFits(s.noq, answer)
    ensures
      var (flags, noq, done) := Finish(s.flags, s.noq, entry, answer);
      if s.inFlight.Keys != {} || s.flags.streaming then (flags, noq, done) == (s.flags, s.noq, Err(InUse))
      else
        && flags == s.flags.(ended := true)
        && (done == Ok <==> noq.fin && !s.noq.fin) && (done == Ok <==> entry == Present(None) && answer.FinTaken?)
        && noq.committed == s.noq.committed && noq.reset == s.noq.reset && (s.noq.fin ==> noq.fin)
        && (entry.Gone? ==> done == Err(Closed))
        && (entry.Present? && entry.error.Some? ==> done == Err(entry.error.value))
        && (entry == Present(None) && answer.FinStopped? ==> done == Err(Reset(answer.code)))
        && (entry == Present(None) && answer.FinClosed? ==> done == Err(Closed))
  {
  }

  /** A call that ends the stream: an admitted `finish`, `write_via_stream`'s own, a reset. */
  predicate Asks(s: Sender, e: SendEvent) {
    (e.FinishCalled? && s.inFlight.Keys == {} && !s.flags.streaming) || e.ViaFinished? || e.ResetCalled?
  }

  ghost predicate Asked(s: Sender, es: seq<SendEvent>)
    requires IsRun(s, es)
    decreases |es|
  {
    es != [] && (Asks(s, es[0]) || Asked(Apply(s, es[0]), es[1..]))
  }

  lemma EndedByAsking(s: Sender, e: SendEvent)
    requires SenderInv(s) && Enabled(s, e)
    ensures Apply(s, e).flags.ended <==> s.flags.ended || Asks(s, e)
  {
    hide Pass, ByteExact, FinIsLast;
  }

  lemma {:induction false} EndedIffAsked(s: Sender, es: seq<SendEvent>)
    requires SenderInv(s) && IsRun(s, es)
    ensures After(s, es).flags.ended <==> s.flags.ended || Asked(s, es)
    decreases |es|
  {
    hide SenderInv, Enabled, Apply, Asks;
    if es != [] {
      StepKeepsInv(s, es[0]);
      EndedByAsking(s, es[0]);
      EndedIffAsked(Apply(s, es[0]), es[1..]);
    }
  }

  /** The drop contract over every run: a stream nobody finished or reset is reset by
      its drop while its connection keeps its slot; one that was asked to end, or
      whose slot was reused, is left alone. */
  lemma DropLeavesNoneWaiting(es: seq<SendEvent>, entry: Entry)
    requires IsRun(NewSender(), es)
    ensures
      var t := After(NewSender(), es);
      var noq := Dropped(t.flags, t.noq, entry).1;
      && noq == t.noq.(reset := noq.reset)
      && (noq.reset <==> t.noq.reset || (!Asked(NewSender(), es) && entry.Present?))
  {
    EndedIffAsked(NewSender(), es);
  }

  /** A reset reaches noq exactly while the connection keeps its slot. */
  lemma ResetReaches(s: Sender, entry: Entry)
    ensures var t := Apply(s, ResetCalled(entry));
      t == s.(flags := s.flags.(ended := true), noq := s.noq.(reset := s.noq.reset || entry.Present?))
  {
  }
}

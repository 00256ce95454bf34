/** What the stream and datagram methods ask of the pump: for each, whether it
    leaves noq something to send and whether it kicks (endpoint/src/endpoint_impl.rs). */
module StreamCalls {
  import opened Types
  import S = SendStreams
  import V = RecvStreams

  /** One poll or call that reaches noq, with noq's answers. `transmit` is what
      noq says, as a read's chunks are finalized, about having credit to send:
      the code discards it. `again`: an `open` polled since its first refusal. */
  datatype StreamOp =
    | WritePolled(send: S.NoqSend, bytes: seq<byte>, offset: nat, entry: Entry, writes: seq<S.WriteAnswer>)
    | FinishCalled(flags: S.Flags, send: S.NoqSend, entry: Entry, finish: S.FinishAnswer)
    | ViaFinished(flags: S.Flags, send: S.NoqSend, entry: Entry, finish: S.FinishAnswer)
    | ResetCalled(flags: S.Flags, send: S.NoqSend, entry: Entry)
    | ReadPolled(recv: V.NoqRecv, max: nat, entry: Entry, read: V.ReadAnswer, transmit: bool)
    | StopCalled(entry: Entry)
    | OpenPolled(entry: Entry, granted: bool, again: bool)
    | AcceptPolled(entry: Entry)
    | DatagramSent(entry: Entry, taken: bool)
    | DatagramPolled(entry: Entry)

  predicate Sound(entry: Entry) { entry.Present? && entry.error == None }

  /** noq's discipline: its answers fit its streams, and a read leaves credit to
      send only if it took something. */
  predicate Fits(op: StreamOp) {
    match op
    case WritePolled(send, bytes, offset, _, writes) =>
      offset <= |bytes| && S.AnswersFit(send.fin || send.reset, |bytes| - offset, writes)
    case FinishCalled(_, send, _, finish) => S.FinFits(send, finish)
    case ViaFinished(_, send, _, finish) => S.FinFits(send, finish)
    case ReadPolled(recv, max, entry, read, transmit) =>
      && (entry.Present? ==> V.AnswerFits(recv, max, read))
      && (transmit ==> read.Chunk? || read.FinReached? || read.ResetBy?)
    case _ => true
  }

  /** The code's branches that kick the pump. */
  predicate Kicks(op: StreamOp)
    requires Fits(op)
  {
    match op
    case WritePolled(send, bytes, offset, entry, writes) => Sound(entry) && S.Pass(send, bytes, offset, writes).1 > offset
    case FinishCalled(flags, _, entry, finish) => !flags.streaming && !flags.writing && S.FinishKicks(entry, finish)
    case ViaFinished(_, _, entry, finish) => S.FinishKicks(entry, finish)
    case ResetCalled(_, _, entry) => entry.Present?
    case ReadPolled(_, _, entry, read, _) => V.ReadKicks(entry, read)
    case StopCalled(entry) => entry.Present?
    case OpenPolled(entry, granted, again) => Sound(entry) && !granted && !again
    case DatagramSent(entry, taken) => Sound(entry) && taken
    case _ => false
  }

  /** noq has something more to send after it: new bytes, a FIN or a reset on the
      stream's send half; credit freed by a read; a stop; word that streams are
      wanted, once per `open`; a datagram. */
  predicate Loads(op: StreamOp)
    requires Fits(op)
  {
    match op
    case WritePolled(send, bytes, offset, entry, writes) => Sound(entry) && S.Pass(send, bytes, offset, writes).0 != send
    case FinishCalled(flags, send, entry, finish) => S.Finish(flags, send, entry, finish).1 != send
    case ViaFinished(flags, send, entry, finish) => S.DoFinish(flags, send, entry, finish).1 != send
    case ResetCalled(flags, send, entry) => S.ResetStream(flags, send, entry).1 != send
    case ReadPolled(_, _, entry, _, transmit) => entry.Present? && transmit
    case StopCalled(entry) => entry.Present?
    case OpenPolled(entry, granted, again) => Sound(entry) && !granted && !again
    case DatagramSent(entry, taken) => Sound(entry) && taken
    case _ => false
  }

  /** A read that consumed a RESET and freed credit with it. */
  predicate ConsumesReset(op: StreamOp) {
    op.ReadPolled? && op.entry.Present? && op.read.ResetBy? && op.transmit
  }

  /** Branch by branch: a call that gives noq something to send kicks the pump
      for it, but for exactly one, the read that consumes a RESET. */
  lemma UnkickedLoadsAreResets(op: StreamOp)
    requires Fits(op)
    ensures Loads(op) && !Kicks(op) <==> ConsumesReset(op)
  {
    if op.WritePolled? {
      S.PassCommits(op.send, op.bytes, op.offset, op.writes);
      var end := S.Pass(op.send, op.bytes, op.offset, op.writes).1;
      assert end == op.offset ==> op.bytes[op.offset..end] == [] && op.send.committed + [] == op.send.committed;
    }
  }
}

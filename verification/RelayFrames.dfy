/** Wire framing of the relay protocol (core/src/relay_frames.rs). */
module RelayFrames {
  import opened Types

  const CLIENT_TO_RELAY_DATAGRAM: byte := 4
  const RELAY_TO_CLIENT_DATAGRAM := 6
  const RELAY_TO_CLIENT_DATAGRAM_BATCH := 7
  const PING: byte := 9
  const PONG: byte := 10

  const TWO_TO_THE_64 := 0x1_0000_0000_0000_0000

  datatype Datagram = Datagram(source: EndpointId, payload: seq<byte>)

  // ----- the frame tag: a variable-length integer (section 16 of RFC 9000) -----

  function BigEndian(bs: seq<byte>): nat {
    if bs == [] then 0 else BigEndian(bs[..|bs| - 1]) * 256 + bs[|bs| - 1]
  }

  function ToBytes(v: nat, n: nat): (bs: seq<byte>)
    ensures |bs| == n
  {
    if n == 0 then [] else ToBytes(v / 256, n - 1) + [v % 256]
  }

  function Pow256(n: nat): (p: nat)
    ensures p >= 1
  {
    if n == 0 then 1 else 256 * Pow256(n - 1)
  }

  /** The two length bits select 1, 2, 4 or 8 bytes. */
  type LengthCode = c: int | 0 <= c < 4

  function VarintLen(code: LengthCode): nat {
    match code case 0 => 1 case 1 => 2 case 2 => 4 case _ => 8
  }

  /** The number of values a length can carry: 2^6, 2^14, 2^30, 2^62. */
  function VarintCap(code: LengthCode): nat {
    match code case 0 => 0x40 case 1 => 0x4000 case 2 => 0x4000_0000 case _ => 0x4000_0000_0000_0000
  }

  /** The encoding of section 16 of RFC 9000, written from the standard: the
      length code in the two most significant bits, the value in the rest, in
      network byte order. */
  function EncodeVarint(v: nat, code: LengthCode): seq<byte>
    requires v < VarintCap(code)
  {
    ToBytes(code * VarintCap(code) + v, VarintLen(code))
  }

  /** What `SplitTag` computes. */
  function Split(frame: seq<byte>): Option<(nat, seq<byte>)> {
    if frame == [] then None
    else
      var len := VarintLen(frame[0] / 64);
      if |frame| < len then None
      else Some((BigEndian([frame[0] % 64] + frame[1..len]), frame[len..]))
  }

  method SplitTag(frame: seq<byte>) returns (r: Option<(nat, seq<byte>)>)
    ensures r == Split(frame)
    ensures r.Some? ==> r.value.0 < VarintCap(3)
  {
    if |frame| == 0 {
      return None;
    }
    var first := frame[0];
    var len := VarintLen(first / 64);
    if |frame| < len {
      return None;
    }
    var value := first % 64;
    assert [first % 64] + frame[1..1] == [first % 64];
    assert BigEndian([first % 64]) == first % 64;
    for i := 1 to len
      invariant value == BigEndian([first % 64] + frame[1..i])
      invariant value < 64 * Pow256(i - 1)
    {
      TagFits(i - 1);
      assert [first % 64] + frame[1..i + 1] == ([first % 64] + frame[1..i]) + [frame[i]];
      BigEndianSnoc([first % 64] + frame[1..i], frame[i]);
      assert value * 256 < TWO_TO_THE_64;
      value := (value * 256) % TWO_TO_THE_64 + frame[i];
    }
    TagFits(len - 1);
    return Some((value, frame[len..]));
  }

  lemma BigEndianSnoc(bs: seq<byte>, b: byte)
    ensures BigEndian(bs + [b]) == BigEndian(bs) * 256 + b
  {
    assert (bs + [b])[..|bs|] == bs;
  }

  lemma TagFits(k: nat)
    requires k <= 7
    ensures 64 * Pow256(k) <= VarintCap(3)
    ensures k < 7 ==> 64 * Pow256(k) * 256 <= VarintCap(3)
  {
    assert Pow256(1) == 256 && Pow256(2) == 0x1_0000 && Pow256(3) == 0x100_0000;
    assert Pow256(4) == 0x1_0000_0000 && Pow256(5) == 0x100_0000_0000;
    assert Pow256(6) == 0x1_0000_0000_0000 && Pow256(7) == 0x100_0000_0000_0000;
  }

  lemma CapIsPow(code: LengthCode)
    ensures VarintCap(code) == 64 * Pow256(VarintLen(code) - 1)
  {
    assert Pow256(3) == 0x100_0000;
    assert Pow256(4) == 0x1_0000_0000;
    assert Pow256(7) == 0x100_0000_0000_0000;
  }

  lemma {:induction false} BigEndianOfToBytes(v: nat, n: nat)
    requires v < Pow256(n)
    ensures BigEndian(ToBytes(v, n)) == v
  {
    if n > 0 {
      BigEndianOfToBytes(v / 256, n - 1);
      assert ToBytes(v, n)[..n - 1] == ToBytes(v / 256, n - 1);
    }
  }

  lemma {:induction false} ToBytesOfBigEndian(bs: seq<byte>)
    ensures BigEndian(bs) < Pow256(|bs|)
    ensures ToBytes(BigEndian(bs), |bs|) == bs
  {
    if bs != [] {
      var init, last := bs[..|bs| - 1], bs[|bs| - 1];
      ToBytesOfBigEndian(init);
      assert (BigEndian(init) * 256 + last) / 256 == BigEndian(init);
      assert bs == init + [last];
    }
  }

  lemma {:induction false} BigEndianHead(h: byte, t: seq<byte>)
    ensures BigEndian([h] + t) == h * Pow256(|t|) + BigEndian(t)
  {
    if t == [] {
      assert [h] + t == [h];
      assert BigEndian([h]) == h;
    } else {
      var init := t[..|t| - 1];
      BigEndianHead(h, init);
      assert ([h] + t)[..|t|] == [h] + init;
      assert h * Pow256(|t|) == (h * Pow256(|init|)) * 256;
    }
  }

  /** Clearing the two length bits of the first byte subtracts exactly the length code's share. */
  lemma MaskedHead(bs: seq<byte>)
    requires bs != [] && |bs| == VarintLen(bs[0] / 64)
    ensures BigEndian(bs) == (bs[0] / 64) * VarintCap(bs[0] / 64) + BigEndian([bs[0] % 64] + bs[1..])
    ensures BigEndian([bs[0] % 64] + bs[1..]) < VarintCap(bs[0] / 64)
  {
    assert bs == [bs[0]] + bs[1..];
    MaskedByte(bs[0], bs[1..]);
  }

  lemma MaskedByte(h: byte, t: seq<byte>)
    requires |t| == VarintLen(h / 64) - 1
    ensures BigEndian([h] + t) == (h / 64) * VarintCap(h / 64) + BigEndian([h % 64] + t)
    ensures BigEndian([h % 64] + t) < VarintCap(h / 64)
  {
    var code: LengthCode, low, p := h / 64, h % 64, Pow256(|t|);
    BigEndianHead(h, t);
    BigEndianHead(low, t);
    CapIsPow(code);
    ToBytesOfBigEndian(t);
    SplitHead(code, low, p);
    assert h == 64 * code + low;
  }

  lemma SplitHead(code: nat, low: nat, p: nat)
    requires low < 64
    ensures (64 * code + low) * p == code * (64 * p) + low * p
    ensures low * p + p <= 64 * p
  {
    MulBound(63 - low, p);
  }

  /** The two length bits of an encoding are the length code. */
  lemma EncodingHead(v: nat, code: LengthCode)
    requires v < VarintCap(code)
    ensures EncodeVarint(v, code)[0] / 64 == code
    ensures code * VarintCap(code) + v < Pow256(VarintLen(code))
  {
    CapIsPow(code);
    var bs := EncodeVarint(v, code);
    var n := VarintLen(code);
    var w := code * VarintCap(code) + v;
    assert Pow256(n) == 256 * Pow256(n - 1);
    BigEndianOfToBytes(w, n);
    assert bs == [bs[0]] + bs[1..];
    BigEndianHead(bs[0], bs[1..]);
    ToBytesOfBigEndian(bs[1..]);
    var p := Pow256(n - 1);
    HeadDigit(bs[0], p, code, v, BigEndian(bs[1..]));
  }

  lemma HeadDigit(h: nat, p: nat, code: nat, v: nat, low: nat)
    requires h * p + low == code * (64 * p) + v
    requires low < p && v < 64 * p
    ensures 64 * code <= h < 64 * code + 64
  {
    assert (64 * code) * p == code * (64 * p);
    if h < 64 * code {
      MulMonotone(h + 1, 64 * code, p);
    } else if h >= 64 * code + 64 {
      MulMonotone(64 * code, 64 * code, p);
      MulMonotone(64 * code + 64, h, p);
    }
  }

  lemma MulMonotone(j: nat, k: nat, p: nat)
    requires j <= k
    ensures j * p <= k * p
    ensures (j + 1) * p == j * p + p && (j + 64) * p == j * p + 64 * p
  {
    MulBound(k - j, p);
    assert k * p == j * p + (k - j) * p;
  }

  lemma MulBound(k: nat, p: nat)
    ensures k * p >= 0
  {
  }

  /** `SplitTag` inverts the encoding at all four lengths, whatever follows. */
  lemma SplitOfEncode(v: nat, code: LengthCode, rest: seq<byte>)
    requires v < VarintCap(code)
    ensures Split(EncodeVarint(v, code) + rest) == Some((v, rest))
  {
    var bs := EncodeVarint(v, code);
    EncodingHead(v, code);
    BigEndianOfToBytes(code * VarintCap(code) + v, VarintLen(code));
    MaskedHead(bs);
    assert (bs + rest)[1..|bs|] == bs[1..];
    assert (bs + rest)[|bs|..] == rest;
  }

  /** Everything `SplitTag` accepts is an encoding of the value it returns. */
  lemma EncodeOfSplit(frame: seq<byte>)
    requires Split(frame).Some?
    ensures
      var (v, rest) := Split(frame).value;
      var code := frame[0] / 64;
      v < VarintCap(code) && frame == EncodeVarint(v, code) + rest
  {
    var code := frame[0] / 64;
    var bs := frame[..VarintLen(code)];
    assert bs[1..] == frame[1..VarintLen(code)];
    MaskedHead(bs);
    ToBytesOfBigEndian(bs);
  }

  /** The tag splitter accepts exactly the encodings of section 16 of RFC 9000. */
  lemma SplitIffEncoded(frame: seq<byte>, v: nat, rest: seq<byte>)
    ensures Split(frame) == Some((v, rest))
      <==> exists code: LengthCode :: v < VarintCap(code) && frame == EncodeVarint(v, code) + rest
  {
    if Split(frame) == Some((v, rest)) {
      EncodeOfSplit(frame);
    }
    if code: LengthCode :| v < VarintCap(code) && frame == EncodeVarint(v, code) + rest {
      SplitOfEncode(v, code, rest);
    }
  }

  // ----- datagram frames -----

  method EncodeClientDatagram(dst: EndpointId, payload: seq<byte>) returns (frame: seq<byte>)
    ensures frame == [4] + dst + [0] + payload && Split(frame) == Some((4, dst + [0] + payload))
    ensures DecodeRelayDatagrams(frame[1..], false) == Some([Datagram(dst, payload)])
  {
    frame := [CLIENT_TO_RELAY_DATAGRAM];
    frame := frame + dst;
    frame := frame + [0];
    frame := frame + payload;
    assert [frame[0] % 64] + frame[1..1] == [frame[0]];
    assert BigEndian([frame[0]]) == frame[0];
    assert frame[1..] == dst + [0] + payload;
    assert frame[1..][..32] == dst;
    assert frame[1..][32..][1..] == payload;
  }

  method EncodeProbe(tag: byte, payload: seq<byte>) returns (frame: seq<byte>)
    requires tag == PING || tag == PONG
    requires |payload| == 8
    ensures |frame| == 9
    ensures Split(frame) == Some((tag, payload))
  {
    frame := [tag];
    frame := frame + payload;
    assert [frame[0] % 64] + frame[1..1] == [frame[0]];
    assert BigEndian([frame[0]]) == frame[0];
  }

  /** `u16::from_be_bytes`. */
  function U16(high: nat, low: nat): nat { high * 256 + low }

  function DecodeRelayDatagrams(payload: seq<byte>, batch: bool): Option<seq<Datagram>> {
    if |payload| < 32 then None
    else
      var source: EndpointId := payload[..32];
      var rest := payload[32..];
      if batch then
        if |rest| < 3 then None
        else
          var segmentSize := U16(rest[1], rest[2]);
          if segmentSize == 0 then None
          else Some(FromSource(source, Chunks(rest[3..], segmentSize)))
      else if |rest| < 1 then None
      else Some([Datagram(source, rest[1..])])
  }

  function FromSource(source: EndpointId, chunks: seq<seq<byte>>): (ds: seq<Datagram>)
    ensures |ds| == |chunks|
  {
    if chunks == [] then []
    else [Datagram(source, chunks[0])] + FromSource(source, chunks[1..])
  }

  /** `<[u8]>::chunks`. */
  function Chunks(contents: seq<byte>, size: nat): seq<seq<byte>>
    requires size > 0
  {
    if |contents| == 0 then []
    else if |contents| <= size then [contents]
    else [contents[..size]] + Chunks(contents[size..], size)
  }

  function Concat(chunks: seq<seq<byte>>): seq<byte> {
    if chunks == [] then [] else chunks[0] + Concat(chunks[1..])
  }

  /** A splitting of `contents` into segments: in order, nothing lost, all of
      the segment size except a last one that may be shorter but not empty. */
  ghost predicate IsSegmentation(chunks: seq<seq<byte>>, contents: seq<byte>, size: nat) {
    && Concat(chunks) == contents
    && (forall i :: 0 <= i < |chunks| ==> 0 < |chunks[i]| <= size)
    && (forall i :: 0 <= i < |chunks| - 1 ==> |chunks[i]| == size)
  }

  lemma ConcatLength(chunks: seq<seq<byte>>)
    ensures |chunks| == 1 ==> Concat(chunks) == chunks[0]
    ensures |chunks| >= 2 ==> |Concat(chunks)| >= |chunks[0]| + |chunks[1]|
  {
    if |chunks| == 1 {
      assert Concat(chunks[1..]) == [];
    } else if |chunks| >= 2 {
      assert Concat(chunks[1..]) == chunks[1] + Concat(chunks[2..]);
    }
  }

  /** The batch split is the one and only segmentation of the contents. */
  lemma {:induction false} ChunksAreTheSegmentation(chunks: seq<seq<byte>>, contents: seq<byte>, size: nat)
    requires size > 0
    ensures chunks == Chunks(contents, size) <==> IsSegmentation(chunks, contents, size)
    decreases |contents|
  {
    if |contents| <= size {
      assert Concat([contents]) == contents + Concat([]) == contents;
      ConcatLength(chunks);
      if chunks != [] && IsSegmentation(chunks, contents, size) {
        assert chunks == [chunks[0]];
      }
    } else {
      var rest := contents[size..];
      var all := Chunks(contents, size);
      ChunksAreTheSegmentation(Chunks(rest, size), rest, size);
      assert all[1..] == Chunks(rest, size);
      assert contents == contents[..size] + rest;
      assert IsSegmentation(all, contents, size) by {
        assert forall i :: 1 <= i < |all| ==> all[i] == all[1..][i - 1];
      }
      if IsSegmentation(chunks, contents, size) {
        ConcatLength(chunks);
        assert contents[..size] == chunks[0] && rest == Concat(chunks[1..]);
        assert forall i :: 0 <= i < |chunks| - 1 ==> chunks[1..][i] == chunks[i + 1];
        ChunksAreTheSegmentation(chunks[1..], rest, size);
        assert chunks == [chunks[0]] + chunks[1..];
      }
    }
  }

  lemma {:induction false} FromSourceAt(source: EndpointId, chunks: seq<seq<byte>>)
    ensures forall i :: 0 <= i < |chunks| ==> FromSource(source, chunks)[i] == Datagram(source, chunks[i])
  {
    if chunks != [] {
      FromSourceAt(source, chunks[1..]);
    }
  }

  /** A batch frame carrying `contents` in segments of `size`, as the relay lays it out. */
  function BatchPayload(source: EndpointId, ecn: byte, size: nat, contents: seq<byte>): seq<byte>
    requires size < 0x1_0000
  {
    source + [ecn] + [size / 256, size % 256] + contents
  }

  function Payloads(ds: seq<Datagram>): seq<seq<byte>> {
    if ds == [] then [] else [ds[0].payload] + Payloads(ds[1..])
  }

  lemma {:induction false} PayloadsOfFromSource(source: EndpointId, chunks: seq<seq<byte>>)
    ensures Payloads(FromSource(source, chunks)) == chunks
  {
    if chunks != [] {
      PayloadsOfFromSource(source, chunks[1..]);
      assert FromSource(source, chunks)[1..] == FromSource(source, chunks[1..]);
    }
  }

  /** Batch decode of a laid-out batch: every datagram has the frame's source
      and the payloads segment the contents. A zero segment size is refused. */
  lemma BatchRoundTrip(source: EndpointId, ecn: byte, size: nat, contents: seq<byte>)
    requires size < 0x1_0000
    ensures
      var r := DecodeRelayDatagrams(BatchPayload(source, ecn, size, contents), true);
      if size == 0 then r == None
      else
        && r.Some?
        && (forall i :: 0 <= i < |r.value| ==> r.value[i].source == source)
        && IsSegmentation(Payloads(r.value), contents, size)
  {
    var p := BatchPayload(source, ecn, size, contents);
    assert p[..32] == source;
    assert p[32..][1] == size / 256 && p[32..][2] == size % 256;
    assert p[32..][3..] == contents;
    if size > 0 {
      var chunks := Chunks(contents, size);
      FromSourceAt(source, chunks);
      PayloadsOfFromSource(source, chunks);
      ChunksAreTheSegmentation(chunks, contents, size);
    }
  }
}

/** Types shared by every part of the endpoint model. */
module Types {

  type byte = b: int | 0 <= b < 256

  datatype Option<+T> = None | Some(value: T)

  /** The 32-byte key that names an endpoint. */
  type EndpointId = s: seq<byte> | |s| == 32 witness seq(32, i => 0)

  /** A clock reading, and a span between two readings, in nanoseconds. */
  type Instant = nat
  type Duration = nat

  /** The errors the resources report; payload texts are not modelled. */
  datatype Error =
    | Closed
    | TimedOut
    | ConnectFailed
    | Reset(code: nat)
    | InUse
    | Other

  /** What a poll finds at its handle: its connection's slot is gone or reused,
      or the entry is there, with its failure if it has failed. */
  datatype Entry = Gone | Present(error: Option<Error>)

  function Min(a: nat, b: nat): nat { if a <= b then a else b }

  /** `Instant::saturating_duration_since` and `Instant::elapsed`. */
  function Since(now: Instant, earlier: Instant): Duration {
    if earlier <= now then now - earlier else 0
  }

  function Pow2(n: nat): (p: nat)
    ensures p >= 1
  {
    if n == 0 then 1 else 2 * Pow2(n - 1)
  }
}

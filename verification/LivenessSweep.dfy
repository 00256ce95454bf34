/** The tick's liveness sweep over the pooled connections' own probes
    (the tick arm of `pump` in endpoint/src/endpoint_impl.rs). */
module LivenessSweep {
  import opened Types
  import opened Redial
  import opened RelayClient
  import Runtime

  const RELAY_PING_INTERVAL: Duration := 15_000_000_000
  const RELAY_PING_TIMEOUT: Duration := 5_000_000_000
  const POLICY := Policy(RELAY_PING_INTERVAL, RELAY_PING_TIMEOUT)

  /** One pooled connection, its key, and the random draw its redial would take. */
  datatype Pooled = Pooled(key: nat, conn: RelayConn, spread: nat)

  /** The entries of a sweep whose verdict is dead, in order. */
  function Deads(pool: seq<Pooled>, verdicts: seq<ProbeVerdict>): seq<(nat, nat)>
    requires |pool| == |verdicts|
  {
    if pool == [] then []
    else
      var n := |pool| - 1;
      Deads(pool[..n], verdicts[..n]) + if verdicts[n].Dead? then [(pool[n].key, pool[n].spread)] else []
  }

  /** The pings of a sweep, in order, each with its payload. */
  function Pings(pool: seq<Pooled>, verdicts: seq<ProbeVerdict>): seq<(nat, seq<byte>)>
    requires |pool| == |verdicts|
  {
    if pool == [] then []
    else
      var n := |pool| - 1;
      Pings(pool[..n], verdicts[..n]) + if verdicts[n].Ping? then [(pool[n].key, verdicts[n].payload)] else []
  }

  /** A connection whose verdict is a ping has it sent, with the verdict's payload,
      behind exactly those of the connections before it. */
  lemma {:induction false} PingsKeepTheirPlace(pool: seq<Pooled>, verdicts: seq<ProbeVerdict>, i: nat)
    requires |pool| == |verdicts| && i < |pool| && verdicts[i].Ping?
    ensures
      var k := |Pings(pool[..i], verdicts[..i])|;
      k < |Pings(pool, verdicts)| && Pings(pool, verdicts)[k] == (pool[i].key, verdicts[i].payload)
    decreases |pool|
  {
    var n := |pool| - 1;
    if i < n {
      PingsKeepTheirPlace(pool[..n], verdicts[..n], i);
      assert pool[..n][..i] == pool[..i] && verdicts[..n][..i] == verdicts[..i];
    }
  }

  /** And nothing else is sent. */
  lemma {:induction false} OnlyPingsArePinged(pool: seq<Pooled>, verdicts: seq<ProbeVerdict>, k: nat) returns (i: nat)
    requires |pool| == |verdicts| && k < |Pings(pool, verdicts)|
    ensures i < |pool| && verdicts[i].Ping? && k == |Pings(pool[..i], verdicts[..i])|
    ensures Pings(pool, verdicts)[k] == (pool[i].key, verdicts[i].payload)
    decreases |pool|
  {
    var n := |pool| - 1;
    if k < |Pings(pool[..n], verdicts[..n])| {
      i := OnlyPingsArePinged(pool[..n], verdicts[..n], k);
      assert pool[..n][..i] == pool[..i] && verdicts[..n][..i] == verdicts[..i];
    } else {
      i := n;
    }
  }

  lemma {:induction false} DeadsAreTheDead(pool: seq<Pooled>, verdicts: seq<ProbeVerdict>, x: (nat, nat))
    requires |pool| == |verdicts|
    ensures x in Deads(pool, verdicts) <==>
      exists i :: 0 <= i < |pool| && verdicts[i].Dead? && x == (pool[i].key, pool[i].spread)
    decreases |pool|
  {
    if pool != [] {
      var n := |pool| - 1;
      DeadsAreTheDead(pool[..n], verdicts[..n], x);
      if i :| 0 <= i < |pool| && verdicts[i].Dead? && x == (pool[i].key, pool[i].spread) {
        if i < n {
          assert pool[..n][i] == pool[i] && verdicts[..n][i] == verdicts[i];
        }
      }
      if i :| 0 <= i < n && verdicts[..n][i].Dead? && x == (pool[..n][i].key, pool[..n][i].spread) {
        assert verdicts[i].Dead? && x == (pool[i].key, pool[i].spread);
      }
    }
  }

  /** Distinct keys with fitting draws: what a pool copied out of a map is. */
  ghost predicate IsPool(pool: seq<Pooled>) {
    && (forall i :: 0 <= i < |pool| ==> pool[i].spread <= U16_MAX)
    && (forall i, j :: 0 <= i < j < |pool| ==> pool[i].key != pool[j].key && pool[i].conn != pool[j].conn)
  }

  lemma {:induction false} DeadsFitASweep(pool: seq<Pooled>, verdicts: seq<ProbeVerdict>)
    requires |pool| == |verdicts| && IsPool(pool)
    ensures Runtime.SweepFits(Deads(pool, verdicts))
    ensures var ds := Deads(pool, verdicts); forall i, j :: 0 <= i < j < |ds| ==> ds[i].0 != ds[j].0
    decreases |pool|
  {
    if pool != [] {
      var n := |pool| - 1;
      var before := Deads(pool[..n], verdicts[..n]);
      DeadsFitASweep(pool[..n], verdicts[..n]);
      forall k | 0 <= k < |before| ensures before[k].0 != pool[n].key {
        DeadsAreTheDead(pool[..n], verdicts[..n], before[k]);
        var i :| 0 <= i < n && verdicts[..n][i].Dead? && before[k] == (pool[..n][i].key, pool[..n][i].spread);
        assert pool[..n][i] == pool[i];
      }
      var ds := Deads(pool, verdicts);
      assert forall k :: 0 <= k < |before| ==> ds[k] == before[k];
    }
  }

  lemma DeadsArePooled(pool: seq<Pooled>, verdicts: seq<ProbeVerdict>, keys: set<nat>)
    requires |pool| == |verdicts| && forall i :: 0 <= i < |pool| ==> pool[i].key in keys
    ensures var ds := Deads(pool, verdicts); forall i :: 0 <= i < |ds| ==> ds[i].0 in keys
  {
    var ds := Deads(pool, verdicts);
    forall i | 0 <= i < |ds| ensures ds[i].0 in keys {
      DeadsAreTheDead(pool, verdicts, ds[i]);
    }
  }

  /** Every pooled connection takes one probe step. `dead` is what the tick's
      sweep retires; the pings go out detached. */
  method ProbePool(pool: seq<Pooled>, now: Instant)
    returns (dead: seq<(nat, nat)>, pings: seq<(nat, seq<byte>)>, ghost verdicts: seq<ProbeVerdict>)
    requires IsPool(pool) && forall i :: 0 <= i < |pool| ==> pool[i].conn.Valid() && pool[i].conn.policy == POLICY
    modifies set p | p in pool :: p.conn
    ensures |verdicts| == |pool| && dead == Deads(pool, verdicts) && pings == Pings(pool, verdicts)
    ensures forall i :: 0 <= i < |pool| ==> Stepped(pool[i].conn, now, verdicts[i])
  {
    hide RelayConn.PingOverdue, RelayConn.Valid, Probed, Monotone, RelayConn.ProbeState, Deads, Pings;
    dead, pings, verdicts := [], [], [];
    DeadsOfNone();
    assert pool[..0] == [];
    for i := 0 to |pool|
      invariant |verdicts| == i && dead == Deads(pool[..i], verdicts) && pings == Pings(pool[..i], verdicts)
      invariant forall j :: 0 <= j < i ==> Stepped(pool[j].conn, now, verdicts[j])
      invariant forall j :: i <= j < |pool| ==> unchanged(pool[j].conn)
    {
      var verdict := StepOne(pool[i].conn, now);
      DeadsSnoc(pool[..i], pool[i], verdicts, verdict);
      assert pool[..i + 1] == pool[..i] + [pool[i]];
      verdicts := verdicts + [verdict];
      if verdict.Dead? {
        dead := dead + [(pool[i].key, pool[i].spread)];
      } else if verdict.Ping? {
        pings := pings + [(pool[i].key, verdict.payload)];
      }
    }
    assert pool[..|pool|] == pool;
  }

  method StepOne(conn: RelayConn, now: Instant) returns (verdict: ProbeVerdict)
    requires conn.Valid() && conn.policy == POLICY
    modifies conn
    ensures Stepped(conn, now, verdict)
  {
    hide RelayConn.PingOverdue, RelayConn.Valid, Probed, Monotone;
    verdict := conn.ProbeStep(now, RELAY_PING_INTERVAL, RELAY_PING_TIMEOUT);
  }

  lemma DeadsOfNone()
    ensures Deads([], []) == [] && Pings([], []) == []
  {
  }

  lemma DeadsSnoc(pool: seq<Pooled>, p: Pooled, verdicts: seq<ProbeVerdict>, v: ProbeVerdict)
    requires |pool| == |verdicts|
    ensures Deads(pool + [p], verdicts + [v]) == Deads(pool, verdicts) + if v.Dead? then [(p.key, p.spread)] else []
    ensures Pings(pool + [p], verdicts + [v]) == Pings(pool, verdicts) + if v.Ping? then [(p.key, v.payload)] else []
  {
    assert (pool + [p])[..|pool|] == pool && (verdicts + [v])[..|verdicts|] == verdicts;
  }

  /** A connection that falls silent under sweeps at most `gap` apart is pinged 15 s
      after its last frame and found dead 20 s after it, two sweeps later at most. */
  lemma SilentWiresAreFound(start: Instant, es: seq<ProbeEvent>, m: nat, gap: Duration) returns (f: nat, g: nat)
    requires Monotone(start, es) && SilentFrom(es, m) && !Tied(start, es, m, POLICY)
    requires gap > 0 && Paced(es, m, LastFrame(start, es, m), gap)
    requires es[|es| - 1].at >= LastFrame(start, es, m) + 20_000_000_000 + 2 * gap
    ensures m <= f < g < |es| && PingAt(start, es, f, POLICY) && Verdict(start, es, g, POLICY).Dead?
    ensures
      var last := LastFrame(start, es, m);
      && last + 15_000_000_000 <= es[f].at <= last + 15_000_000_000 + gap
      && last + 20_000_000_000 <= es[g].at < last + 20_000_000_000 + 2 * gap
  {
    hide Monotone, SilentFrom, Tied, Paced, LastFrame, PingAt, Verdict;
    f, g := DetectionWindow(start, es, m, gap, POLICY);
  }

  /** A connection stepped only by sweeps, its clock never running backwards, is
      among those a sweep retires exactly when one of its own pings has gone the
      full deadline with no strictly later frame. */
  twostate lemma RetiredIffOverdue(pool: seq<Pooled>, now: Instant, verdicts: seq<ProbeVerdict>, i: nat)
    requires IsPool(pool) && |verdicts| == |pool| && i < |pool| && Stepped(pool[i].conn, now, verdicts[i])
    requires !pool[i].conn.mixed && Monotone(pool[i].conn.connectedAt, pool[i].conn.events)
    ensures (exists spread :: (pool[i].key, spread) in Deads(pool, verdicts)) <==> old(pool[i].conn.PingOverdue(now))
  {
    DeadsAreTheDead(pool, verdicts, (pool[i].key, pool[i].spread));
    hide RelayConn.PingOverdue, RelayConn.Valid, Probed, Monotone;
    if spread :| (pool[i].key, spread) in Deads(pool, verdicts) {
      DeadsAreTheDead(pool, verdicts, (pool[i].key, spread));
      var j :| 0 <= j < |pool| && verdicts[j].Dead? && (pool[i].key, spread) == (pool[j].key, pool[j].spread);
      assert j == i;
    }
  }

  /** The connection took one step at `now`, with this verdict about its history before it. */
  twostate predicate Stepped(conn: RelayConn, now: Instant, verdict: ProbeVerdict)
    reads conn
  {
    && conn.Valid()
    && (conn.ProbeState(), verdict) == Probed(old(conn.ProbeState()), now, RELAY_PING_INTERVAL, RELAY_PING_TIMEOUT)
    && conn.connectedAt == old(conn.connectedAt) && conn.events == old(conn.events) + [Step(now)] && conn.mixed == old(conn.mixed)
    && (!conn.mixed && Monotone(conn.connectedAt, conn.events) ==> (verdict.Dead? <==> old(conn.PingOverdue(now))))
  }
}

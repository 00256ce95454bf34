/** The relay pool, its opening claims, the home relay's redial and the
    receives in flight (endpoint/src/endpoint_impl.rs). Connections are named
    by identities never reused, as `Rc::ptr_eq` tells them apart. */
module RelayPool {
  import opened Types
  import opened Routing
  import opened Redial

  type Url = string

  /** The relay fields of `State`. */
  datatype Pool = Pool(
    conns: map<nat, nat>,
    keys: map<Url, nat>,
    opening: set<Url>,
    newRelays: seq<(nat, nat)>,
    nextKey: nat)

  /** The pump's own relay variables: receives in flight, by key and
      connection; the armed redial's delay; the backoff. */
  datatype PumpRelays = PumpRelays(recvs: multiset<(nat, nat)>, redial: Option<Duration>, backoff: Backoff)

  /** `trim_end_matches('/')`. */
  function Normalize(url: Url): Url {
    if url != "" && url[|url| - 1] == '/' then Normalize(url[..|url| - 1]) else url
  }

  function Slashes(n: nat): Url { seq(n, i => '/') }

  lemma {:induction false} SlashesDrop(base: Url, n: nat)
    ensures Normalize(base + Slashes(n)) == Normalize(base)
  {
    if n == 0 {
      assert base + Slashes(0) == base;
    } else {
      var url := base + Slashes(n);
      assert url[..|url| - 1] == base + Slashes(n - 1);
      SlashesDrop(base, n - 1);
    }
  }

  /** Normalizing drops exactly the trailing slashes. */
  lemma {:induction false} OnlySlashesDrop(url: Url)
    ensures
      var base := Normalize(url);
      && |base| <= |url| && url == base + Slashes(|url| - |base|)
      && (base != "" ==> base[|base| - 1] != '/')
  {
    if url != "" && url[|url| - 1] == '/' {
      var init := url[..|url| - 1];
      OnlySlashesDrop(init);
      assert Slashes(|url| - |Normalize(url)|) == Slashes(|init| - |Normalize(url)|) + "/";
      assert url == init + "/";
    } else {
      assert url == url + Slashes(0);
    }
  }

  /** Two URLs share a key if and only if they differ in trailing slashes alone. */
  lemma SameKeyIffSlashesApart(u: Url, v: Url)
    ensures Normalize(u) == Normalize(v)
      <==> exists base: Url, m: nat, n: nat :: u == base + Slashes(m) && v == base + Slashes(n)
  {
    OnlySlashesDrop(u);
    OnlySlashesDrop(v);
    if base: Url, m: nat, n: nat :| u == base + Slashes(m) && v == base + Slashes(n) {
      SlashesDrop(base, m);
      SlashesDrop(base, n);
    }
  }

  // ----- the operations of `State` and the pump -----

  function RegisterRelay(p: Pool, url: Url, conn: nat): Pool {
    p.(nextKey := p.nextKey + 1,
       conns := p.conns[p.nextKey := conn],
       keys := p.keys[Normalize(url) := p.nextKey],
       newRelays := p.newRelays + [(p.nextKey, conn)])
  }

  function RetireRelay(p: Pool, key: nat): Pool {
    p.(conns := p.conns - {key},
       keys := map url | url in p.keys && p.keys[url] != key :: p.keys[url])
  }

  predicate IsPoolCurrent(p: Pool, key: nat, conn: nat) {
    key in p.conns && p.conns[key] == conn
  }

  /** A failed home connection leaves the pool and a redial is armed, unless
      the pool has moved on from it. */
  function RetireHome(p: Pool, u: PumpRelays, conn: nat, now: Instant, spread: nat): (Pool, PumpRelays)
    requires spread <= U16_MAX
  {
    if IsPoolCurrent(p, HOME_RELAY, conn) then
      var (backoff, delay) := NextRedialDelay(u.backoff, now, spread);
      (p.(conns := p.conns - {HOME_RELAY}), u.(redial := Some(delay), backoff := backoff))
    else (p, u)
  }

  /** A resolved receive: re-arm the pool's current connection, retire a current
      one that failed, ignore a stale failure. */
  function RelayReceived(p: Pool, u: PumpRelays, key: nat, conn: nat, ok: bool, now: Instant, spread: nat)
    : (Pool, PumpRelays)
    requires spread <= U16_MAX
  {
    var current := IsPoolCurrent(p, key, conn);
    var u1 := u.(recvs := u.recvs - multiset{(key, conn)});
    if ok then
      (p, if current then u1.(recvs := u1.recvs + multiset{(key, conn)}) else u1)
    else if !current then (p, u1)
    else if key == HOME_RELAY then RetireHome(p, u1, conn, now, spread)
    else (RetireRelay(p, key), u1)
  }

  /** A relay send that failed: only the home relay is retired for it. */
  function RelaySendFailed(p: Pool, u: PumpRelays, key: nat, conn: nat, now: Instant, spread: nat)
    : (Pool, PumpRelays)
    requires spread <= U16_MAX
  {
    if key == HOME_RELAY then RetireHome(p, u, conn, now, spread) else (p, u)
  }

  /** A dead verdict of the liveness sweep on the connection pooled under `key`. */
  function ProbedDead(p: Pool, u: PumpRelays, key: nat, conn: nat, now: Instant, spread: nat): (Pool, PumpRelays)
    requires spread <= U16_MAX
  {
    if key == HOME_RELAY then RetireHome(p, u, conn, now, spread) else (RetireRelay(p, key), u)
  }

  /** The redial resolved, with a connection or without. */
  function Redialed(p: Pool, u: PumpRelays, dialed: Option<nat>, closed: bool, now: Instant, spread: nat)
    : (Pool, PumpRelays)
    requires spread <= U16_MAX
  {
    var u1 := u.(redial := None);
    match dialed
    case Some(conn) =>
      if closed then (p, u1)
      else (p.(conns := p.conns[HOME_RELAY := conn]),
            u1.(recvs := u1.recvs + multiset{(HOME_RELAY, conn)}, backoff := Reconnected(now)))
    case None =>
      if closed then (p, u1)
      else
        var (backoff, delay) := NextRedialDelay(u1.backoff, now, spread);
        (p, u1.(redial := Some(delay), backoff := backoff))
  }

  function ArmReceives(p: Pool, u: PumpRelays): (Pool, PumpRelays) {
    (p.(newRelays := []), u.(recvs := u.recvs + multiset(p.newRelays)))
  }

  /** The first segment of `ensure_relay`. */
  datatype EnsureResult = Pooled(key: nat) | Refused | Claimed | MustWait

  function EnsureStart(p: Pool, url: Url, closed: bool): (Pool, EnsureResult) {
    var normalized := Normalize(url);
    if normalized in p.keys then (p, Pooled(p.keys[normalized]))
    else if closed then (p, Refused)
    else if normalized in p.opening then (p, MustWait)
    else (p.(opening := p.opening + {normalized}), Claimed)
  }

  /** The claim is given back: the dial resolved or its caller was cancelled. */
  function ReleaseClaim(p: Pool, url: Url): Pool {
    p.(opening := p.opening - {Normalize(url)})
  }

  /** The claimed dial resolved. */
  function OpenResolved(p: Pool, url: Url, dialed: Option<nat>): Pool {
    var p1 := ReleaseClaim(p, url);
    match dialed
    case Some(conn) => RegisterRelay(p1, url, conn)
    case None => p1
  }

  datatype WaitResult = WaitKey(key: nat) | WaitFailed(error: Error) | StillWaiting

  /** One poll of a dialer waiting for a concurrent open. */
  function EnsureWait(p: Pool, url: Url, closed: bool, timedOut: bool): WaitResult {
    var normalized := Normalize(url);
    if normalized in p.keys then WaitKey(p.keys[normalized])
    else if normalized !in p.opening then WaitFailed(ConnectFailed)
    else if closed then WaitFailed(Closed)
    else if timedOut then WaitFailed(TimedOut)
    else StillWaiting
  }

  // ----- the machine: the pool, the pump's receives, every dialer -----

  datatype Dialer = Dialing(url: Url) | Waiting(url: Url)

  /** `retired` lists the connections taken out of the pool, in order;
      `nextConn` is the source of connection identities; `dialedTo` records which
      URL each connection was dialed to. */
  datatype Relays = Relays(
    pool: Pool,
    pump: PumpRelays,
    dialers: map<nat, Dialer>,
    closed: bool,
    homeUrl: Url,
    nextConn: nat,
    retired: seq<nat>,
    dialedTo: map<nat, Url>)

  /** The endpoint right after `bind` connected and registered the home relay. */
  function Bound(homeUrl: Url, now: Instant): Relays {
    Relays(
      RegisterRelay(Pool(map[], map[], {}, [], HOME_RELAY), homeUrl, 0),
      PumpRelays(multiset{}, None, Reconnected(now)),
      map[], false, homeUrl, 1, [], map[0 := homeUrl])
  }

  datatype RelayEvent =
    | EnsureCalled(dialer: nat, url: Url)
    | DialResolved(dialer: nat, ok: bool)
    | DialCancelled(dialer: nat)
    | WaitPolled(dialer: nat, timedOut: bool)
    | WaitCancelled(dialer: nat)
    | SendFailed(key: nat, conn: nat, now: Instant, spread: nat)
    | Received(key: nat, conn: nat, ok: bool, now: Instant, spread: nat)
    | FoundDead(key: nat, now: Instant, spread: nat)
    | RedialResolved(ok: bool, now: Instant, spread: nat)
    | Armed
    | EndpointClosed

  /** What can happen next. Every interleaving of these steps is allowed; the
      pump's own order is one of them. */
  predicate Enabled(s: Relays, e: RelayEvent) {
    match e
    case EnsureCalled(d, _) => d !in s.dialers
    case DialResolved(d, _) => d in s.dialers && s.dialers[d].Dialing?
    case DialCancelled(d) => d in s.dialers && s.dialers[d].Dialing?
    case WaitPolled(d, _) => d in s.dialers && s.dialers[d].Waiting?
    case WaitCancelled(d) => d in s.dialers && s.dialers[d].Waiting?
    case SendFailed(_, _, _, spread) => spread <= U16_MAX
    case Received(key, conn, _, _, spread) => (key, conn) in s.pump.recvs && spread <= U16_MAX
    case FoundDead(key, _, spread) => key in s.pool.conns && spread <= U16_MAX
    case RedialResolved(_, _, spread) => s.pump.redial.Some? && spread <= U16_MAX
    case Armed => true
    case EndpointClosed => true
  }

  /** The connections that left the pool between two states: at most one a step. */
  function Retired(p: Pool, q: Pool, key: nat): seq<nat> {
    if key in p.conns && key !in q.conns then [p.conns[key]] else []
  }

  function WithPool(s: Relays, next: (Pool, PumpRelays), key: nat): Relays {
    s.(pool := next.0, pump := next.1, retired := s.retired + Retired(s.pool, next.0, key))
  }

  function Apply(s: Relays, e: RelayEvent): Relays
    requires Enabled(s, e)
  {
    match e
    case EnsureCalled(d, url) =>
      var (pool, result) := EnsureStart(s.pool, url, s.closed);
      var s1 := s.(pool := pool);
      (match result
       case Claimed => s1.(dialers := s.dialers[d := Dialing(url)])
       case MustWait => s1.(dialers := s.dialers[d := Waiting(url)])
       case _ => s1)
    case DialResolved(d, ok) =>
      s.(pool := OpenResolved(s.pool, s.dialers[d].url, if ok then Some(s.nextConn) else None),
         dialers := s.dialers - {d},
         nextConn := s.nextConn + 1,
         dialedTo := if ok then s.dialedTo[s.nextConn := s.dialers[d].url] else s.dialedTo)
    case DialCancelled(d) =>
      s.(pool := ReleaseClaim(s.pool, s.dialers[d].url), dialers := s.dialers - {d})
    case WaitPolled(d, timedOut) =>
      if EnsureWait(s.pool, s.dialers[d].url, s.closed, timedOut).StillWaiting? then s
      else s.(dialers := s.dialers - {d})
    case WaitCancelled(d) =>
      s.(dialers := s.dialers - {d})
    case SendFailed(key, conn, now, spread) =>
      WithPool(s, RelaySendFailed(s.pool, s.pump, key, conn, now, spread), key)
    case Received(key, conn, ok, now, spread) =>
      WithPool(s, RelayReceived(s.pool, s.pump, key, conn, ok, now, spread), key)
    case FoundDead(key, now, spread) =>
      WithPool(s, ProbedDead(s.pool, s.pump, key, s.pool.conns[key], now, spread), key)
    case RedialResolved(ok, now, spread) =>
      WithPool(s, Redialed(s.pool, s.pump, if ok then Some(s.nextConn) else None, s.closed, now, spread), HOME_RELAY)
        .(nextConn := s.nextConn + 1, dialedTo := if ok then s.dialedTo[s.nextConn := s.homeUrl] else s.dialedTo)
    case Armed =>
      WithPool(s, ArmReceives(s.pool, s.pump), HOME_RELAY)
    case EndpointClosed =>
      s.(closed := true)
  }

  // ----- what every step keeps -----

  /** URL mapping and pool agree: the mapping is one-to-one, its foreign keys
      are the pool's foreign keys, the home URL maps to the home key, and keys
      come from the counter. */
  ghost predicate PoolAgrees(s: Relays) {
    var p := s.pool;
    && p.nextKey > HOME_RELAY
    && Normalize(s.homeUrl) in p.keys && p.keys[Normalize(s.homeUrl)] == HOME_RELAY
    && (forall u :: u in p.keys ==> p.keys[u] < p.nextKey)
    && (forall k :: k in p.conns ==> k < p.nextKey)
    && (forall u, v :: u in p.keys && v in p.keys && p.keys[u] == p.keys[v] ==> u == v)
    && (forall u :: u in p.keys && p.keys[u] != HOME_RELAY ==> p.keys[u] in p.conns)
    && (forall k :: k in p.conns && k != HOME_RELAY ==> exists u :: u in p.keys && p.keys[u] == k)
  }

  ghost predicate Holds(s: Relays, d: nat, url: Url) {
    d in s.dialers && s.dialers[d].Dialing? && Normalize(s.dialers[d].url) == url
  }

  /** A URL is being opened exactly when one live dialer holds its claim, and
      no URL being opened is already mapped. */
  ghost predicate ClaimsAreHeld(s: Relays) {
    && (forall url :: url in s.pool.opening ==> exists d :: Holds(s, d, url))
    && (forall d :: d in s.dialers && s.dialers[d].Dialing? ==> Normalize(s.dialers[d].url) in s.pool.opening)
    && (forall c, d, url :: Holds(s, c, url) && Holds(s, d, url) ==> c == d)
    && (forall url :: url in s.pool.opening ==> url !in s.pool.keys)
  }

  /** Never both a home connection and a redial; while open, one of them. The
      attempt counter is zero whenever a registration is remembered. */
  ghost predicate HomeLifecycle(s: Relays) {
    && !(HOME_RELAY in s.pool.conns && s.pump.redial.Some?)
    && (!s.closed ==> HOME_RELAY in s.pool.conns || s.pump.redial.Some?)
    && (HOME_RELAY in s.pool.conns ==> s.pump.backoff.homeSince.Some?)
    && (s.pump.backoff.homeSince.Some? ==> s.pump.backoff.attempt == 0)
  }

  /** Every receive that is in flight or waits to be armed. */
  ghost function Receives(s: Relays): multiset<(nat, nat)> {
    s.pump.recvs + multiset(s.pool.newRelays)
  }

  /** No connection is received twice, under whatever key; every pooled one is
      received exactly once; retired ones are gone from the pool for good. */
  ghost predicate ReceiveDiscipline(s: Relays) {
    && (forall x :: Receives(s)[x] <= 1)
    && (forall x :: x in Receives(s) ==> x.1 < s.nextConn)
    && (forall x, y :: x in Receives(s) && y in Receives(s) && x.1 == y.1 ==> x == y)
    && (forall k :: k in s.pool.conns ==> Receives(s)[(k, s.pool.conns[k])] == 1)
  }

  /** Each connection is retired at most once, and a retired one is never pooled again. */
  ghost predicate RetiredOnce(s: Relays) {
    && (forall i, j :: 0 <= i < j < |s.retired| ==> s.retired[i] != s.retired[j])
    && (forall i :: 0 <= i < |s.retired| ==> s.retired[i] < s.nextConn)
    && (forall k :: k in s.pool.conns ==> s.pool.conns[k] < s.nextConn && s.pool.conns[k] !in s.retired)
    && (forall j, k :: j in s.pool.conns && k in s.pool.conns && s.pool.conns[j] == s.pool.conns[k] ==> j == k)
  }

  /** The connection behind a URL's key was dialed to that URL. */
  ghost predicate DialedAsKeyed(s: Relays) {
    && (forall u :: u in s.pool.keys && s.pool.keys[u] in s.pool.conns ==> LeadsTo(s, s.pool.keys[u], u))
    && (forall c :: c in s.dialedTo ==> c < s.nextConn)
  }

  ghost predicate LeadsTo(s: Relays, key: nat, url: Url)
    requires key in s.pool.conns
  {
    var conn := s.pool.conns[key];
    conn in s.dialedTo && Normalize(s.dialedTo[conn]) == url
  }

  ghost predicate RelaysInv(s: Relays) {
    PoolAgrees(s) && ClaimsAreHeld(s) && HomeLifecycle(s) && ReceiveDiscipline(s) && RetiredOnce(s) && DialedAsKeyed(s)
  }

  /** What `RetireRelay` does to a pool that agrees: one key and its URL go. */
  lemma RetireRelayAgrees(s: Relays, key: nat, t: Relays)
    requires PoolAgrees(s) && key != HOME_RELAY
    requires t.pool == RetireRelay(s.pool, key) && t.homeUrl == s.homeUrl
    ensures PoolAgrees(t)
  {
    hide Normalize;
    forall k | k in t.pool.conns && k != HOME_RELAY
      ensures exists u :: u in t.pool.keys && t.pool.keys[u] == k
    {
      var u :| u in s.pool.keys && s.pool.keys[u] == k;
      assert u in t.pool.keys && t.pool.keys[u] == k;
    }
  }

  lemma RegisterRelayAgrees(s: Relays, url: Url, conn: nat, t: Relays)
    requires PoolAgrees(s) && Normalize(url) !in s.pool.keys
    requires t.pool.conns == s.pool.conns[s.pool.nextKey := conn]
    requires t.pool.keys == s.pool.keys[Normalize(url) := s.pool.nextKey]
    requires t.pool.nextKey == s.pool.nextKey + 1 && t.homeUrl == s.homeUrl
    ensures PoolAgrees(t)
  {
    hide Normalize;
    forall k | k in t.pool.conns && k != HOME_RELAY
      ensures exists u :: u in t.pool.keys && t.pool.keys[u] == k
    {
      if k == s.pool.nextKey {
        assert t.pool.keys[Normalize(url)] == k;
      } else {
        var u :| u in s.pool.keys && s.pool.keys[u] == k;
        assert t.pool.keys[u] == k;
      }
    }
  }

  lemma HomeMovesAgree(s: Relays, t: Relays)
    requires PoolAgrees(s)
    requires t.pool.keys == s.pool.keys && t.pool.nextKey == s.pool.nextKey && t.homeUrl == s.homeUrl
    requires t.pool.conns - {HOME_RELAY} == s.pool.conns - {HOME_RELAY}
    ensures PoolAgrees(t)
  {
    forall k | k != HOME_RELAY ensures k in t.pool.conns <==> k in s.pool.conns {
      assert k in t.pool.conns - {HOME_RELAY} <==> k in s.pool.conns - {HOME_RELAY};
    }
  }

  lemma PoolAgreesKept(s: Relays, e: RelayEvent)
    requires RelaysInv(s) && Enabled(s, e)
    ensures PoolAgrees(Apply(s, e))
  {
    hide PoolAgrees, HomeLifecycle, ReceiveDiscipline, RetiredOnce, DialedAsKeyed, Normalize;
    var t := Apply(s, e);
    match e {
      case DialResolved(d, ok) =>
        if ok {
          RegisterRelayAgrees(s, s.dialers[d].url, s.nextConn, t);
        } else {
          HomeMovesAgree(s, t);
        }
      case Received(key, conn, ok, now, spread) =>
        if !ok && IsPoolCurrent(s.pool, key, conn) && key != HOME_RELAY {
          RetireRelayAgrees(s, key, t);
        } else {
          HomeMovesAgree(s, t);
        }
      case FoundDead(key, now, spread) =>
        if key != HOME_RELAY {
          RetireRelayAgrees(s, key, t);
        } else {
          HomeMovesAgree(s, t);
        }
      case _ =>
        HomeMovesAgree(s, t);
    }
  }

  lemma OnlyCloseCloses(s: Relays, e: RelayEvent)
    requires Enabled(s, e)
    ensures Apply(s, e).closed == (s.closed || e.EndpointClosed?)
  {
    hide Normalize, NextRedialDelay;
  }

  // ----- claims -----

  lemma AddClaimKeeps(s: Relays, d: nat, url: Url, t: Relays)
    requires ClaimsAreHeld(s) && d !in s.dialers
    requires Normalize(url) !in s.pool.opening && Normalize(url) !in s.pool.keys
    requires t.dialers == s.dialers[d := Dialing(url)] && t.pool.keys == s.pool.keys
    requires t.pool.opening == s.pool.opening + {Normalize(url)}
    ensures ClaimsAreHeld(t)
  {
    hide Normalize;
    forall u | u in t.pool.opening ensures exists c :: Holds(t, c, u) {
      if u == Normalize(url) {
        assert Holds(t, d, u);
      } else {
        var c :| Holds(s, c, u);
        assert Holds(t, c, u);
      }
    }
    forall b, c, u | Holds(t, b, u) && Holds(t, c, u) ensures b == c {
      assert b != d ==> Holds(s, b, u);
      assert c != d ==> Holds(s, c, u);
    }
  }

  /** The claimant leaves with its claim; its URL, and no other, may get mapped. */
  lemma DropClaimKeeps(s: Relays, d: nat, t: Relays)
    requires ClaimsAreHeld(s) && d in s.dialers && s.dialers[d].Dialing?
    requires t.dialers == s.dialers - {d}
    requires t.pool.opening == s.pool.opening - {Normalize(s.dialers[d].url)}
    requires forall u :: u in t.pool.keys ==> u in s.pool.keys || u == Normalize(s.dialers[d].url)
    ensures ClaimsAreHeld(t)
  {
    hide Normalize;
    var url := Normalize(s.dialers[d].url);
    assert Holds(s, d, url);
    forall u | u in t.pool.opening ensures exists c :: Holds(t, c, u) {
      var c :| Holds(s, c, u);
      assert Holds(t, c, u);
    }
    forall b, c, u | Holds(t, b, u) && Holds(t, c, u) ensures b == c {
      assert Holds(s, b, u) && Holds(s, c, u);
    }
    forall c | c in t.dialers && t.dialers[c].Dialing? ensures Normalize(t.dialers[c].url) in t.pool.opening {
      assert Holds(s, c, Normalize(s.dialers[c].url));
    }
  }

  /** Steps that move no claim and map no new URL; waiting dialers come and go. */
  lemma OtherStepsKeepClaims(s: Relays, t: Relays)
    requires ClaimsAreHeld(s)
    requires t.pool.opening == s.pool.opening
    requires forall d :: d in s.dialers && s.dialers[d].Dialing? ==> d in t.dialers && t.dialers[d] == s.dialers[d]
    requires forall d :: d in t.dialers && t.dialers[d].Dialing? ==> d in s.dialers && t.dialers[d] == s.dialers[d]
    requires forall u :: u in t.pool.keys ==> u in s.pool.keys
    ensures ClaimsAreHeld(t)
  {
    hide Normalize;
    forall u | u in t.pool.opening ensures exists c :: Holds(t, c, u) {
      var c :| Holds(s, c, u);
      assert Holds(t, c, u);
    }
    forall b, c, u | Holds(t, b, u) && Holds(t, c, u) ensures b == c {
      assert Holds(s, b, u) && Holds(s, c, u);
    }
  }

  lemma ClaimsKept(s: Relays, e: RelayEvent)
    requires RelaysInv(s) && Enabled(s, e)
    ensures ClaimsAreHeld(Apply(s, e))
  {
    hide PoolAgrees, ClaimsAreHeld, HomeLifecycle, ReceiveDiscipline, RetiredOnce, DialedAsKeyed, Normalize, NextRedialDelay;
    var t := Apply(s, e);
    match e {
      case EnsureCalled(d, url) =>
        if EnsureStart(s.pool, url, s.closed).1.Claimed? {
          AddClaimKeeps(s, d, url, t);
        } else {
          OtherStepsKeepClaims(s, t);
        }
      case DialResolved(d, ok) => DropClaimKeeps(s, d, t);
      case DialCancelled(d) => DropClaimKeeps(s, d, t);
      case _ => OtherStepsKeepClaims(s, t);
    }
  }

  // ----- the home relay -----

  lemma HomeLifecycleKept(s: Relays, e: RelayEvent)
    requires RelaysInv(s) && Enabled(s, e)
    ensures HomeLifecycle(Apply(s, e))
  {
    ConnsAfter(s, e);
    RedialAfter(s, e);
    assert s.pool.nextKey > HOME_RELAY;
    hide PoolAgrees, ClaimsAreHeld, ReceiveDiscipline, RetiredOnce, DialedAsKeyed, Apply, IsPoolCurrent;
  }

  lemma RetireHomeEffect(p: Pool, u: PumpRelays, conn: nat, now: Instant, spread: nat)
    requires spread <= U16_MAX
    ensures
      var (q, v) := RetireHome(p, u, conn, now, spread);
      if IsPoolCurrent(p, HOME_RELAY, conn)
      then
        && q.conns == p.conns - {HOME_RELAY} && v.redial.Some?
        && (v.backoff, v.redial.value) == NextRedialDelay(u.backoff, now, spread)
        && v.backoff.homeSince == None
      else (q, v) == (p, u)
  {
  }

  /** A step's effect on the redial slot and the backoff. */
  lemma RedialAfter(s: Relays, e: RelayEvent)
    requires RelaysInv(s) && Enabled(s, e)
    ensures Apply(s, e).closed == (s.closed || e.EndpointClosed?)
    ensures
      var t := Apply(s, e);
      match e
      case RedialResolved(ok, _, _) =>
        && (t.pump.redial.Some? <==> !ok && !s.closed)
        && (t.pump.backoff.homeSince.Some? ==> t.pump.backoff.attempt == 0 && (ok || s.closed))
        && (ok && !s.closed ==> t.pump.backoff == Backoff(0, Some(e.now)))
      case _ =>
        if HOME_RELAY in s.pool.conns && HOME_RELAY !in t.pool.conns
        then t.pump.redial.Some? && t.pump.backoff.homeSince == None
        else t.pump.redial == s.pump.redial && t.pump.backoff == s.pump.backoff
  {
    hide PoolAgrees, ClaimsAreHeld, ReceiveDiscipline, RetiredOnce, DialedAsKeyed, Normalize, RedialDelay, RetireHome;
    if e.SendFailed? || e.Received? || e.FoundDead? {
      RetirementArms(s, e);
      hide Apply;
    }
  }

  /** The home connection leaves the pool only with a redial armed for it. */
  lemma RetirementArms(s: Relays, e: RelayEvent)
    requires Enabled(s, e) && (e.SendFailed? || e.Received? || e.FoundDead?)
    ensures
      var t := Apply(s, e);
      && t.closed == s.closed
      && if HOME_RELAY in s.pool.conns && HOME_RELAY !in t.pool.conns
         then t.pump.redial.Some? && t.pump.backoff.homeSince == None
         else t.pump.redial == s.pump.redial && t.pump.backoff == s.pump.backoff
  {
    hide Normalize, RedialDelay, NextRedialDelay, RetireHome;
    match e {
      case SendFailed(key, conn, now, spread) => RetireHomeEffect(s.pool, s.pump, conn, now, spread);
      case Received(key, conn, ok, now, spread) =>
        RetireHomeEffect(s.pool, s.pump.(recvs := s.pump.recvs - multiset{(key, conn)}), conn, now, spread);
      case FoundDead(key, now, spread) => RetireHomeEffect(s.pool, s.pump, s.pool.conns[key], now, spread);
    }
  }

  // ----- receives -----

  /** A step's effect on the receives in flight and those waiting to be armed. */
  lemma ArmsAfter(s: Relays, e: RelayEvent)
    requires RelaysInv(s) && Enabled(s, e)
    ensures
      var t := Apply(s, e);
      match e
      case DialResolved(_, true) =>
        t.pump.recvs == s.pump.recvs && t.pool.newRelays == s.pool.newRelays + [(s.pool.nextKey, s.nextConn)]
      case RedialResolved(true, _, _) =>
        && t.pool.newRelays == s.pool.newRelays
        && t.pump.recvs == if s.closed then s.pump.recvs else s.pump.recvs + multiset{(HOME_RELAY, s.nextConn)}
      case Received(key, conn, ok, _, _) =>
        && t.pool.newRelays == s.pool.newRelays
        && t.pump.recvs == if ok && IsPoolCurrent(s.pool, key, conn) then s.pump.recvs
                           else s.pump.recvs - multiset{(key, conn)}
      case Armed => t.pump.recvs == s.pump.recvs + multiset(s.pool.newRelays) && t.pool.newRelays == []
      case _ => t.pump.recvs == s.pump.recvs && t.pool.newRelays == s.pool.newRelays
  {
    hide PoolAgrees, ClaimsAreHeld, HomeLifecycle, ReceiveDiscipline, RetiredOnce, DialedAsKeyed, Normalize, NextRedialDelay;
    match e {
      case Received(key, conn, ok, now, spread) =>
        ReceivedTakesOne(s, key, conn, ok, now, spread);
        hide RelayReceived;
      case _ =>
    }
  }

  lemma ReceivedWasInFlight(s: Relays, e: RelayEvent)
    requires Enabled(s, e) && e.Received?
    ensures (e.key, e.conn) in s.pump.recvs
  {
  }

  lemma ReceivesAfter(s: Relays, e: RelayEvent)
    requires RelaysInv(s) && Enabled(s, e)
    ensures
      var t := Apply(s, e);
      match e
      case DialResolved(_, true) => Receives(t) == Receives(s) + multiset{(s.pool.nextKey, s.nextConn)}
      case RedialResolved(true, _, _) =>
        Receives(t) == if s.closed then Receives(s) else Receives(s) + multiset{(HOME_RELAY, s.nextConn)}
      case Received(key, conn, ok, _, _) =>
        Receives(t) == if ok && IsPoolCurrent(s.pool, key, conn) then Receives(s)
                       else Receives(s) - multiset{(key, conn)}
      case _ => Receives(t) == Receives(s)
  {
    hide Apply, RelaysInv, Enabled, IsPoolCurrent;
    ArmsAfter(s, e);
    var t := Apply(s, e);
    match e {
      case DialResolved(d, ok) =>
        if ok {
          assert multiset(t.pool.newRelays) == multiset(s.pool.newRelays) + multiset{(s.pool.nextKey, s.nextConn)};
        }
      case Received(key, conn, ok, now, spread) =>
        assert (key, conn) in s.pump.recvs by {
          ReceivedWasInFlight(s, e);
        }
      case _ =>
    }
  }

  lemma ReceivedTakesOne(s: Relays, key: nat, conn: nat, ok: bool, now: Instant, spread: nat)
    requires (key, conn) in s.pump.recvs && spread <= U16_MAX
    ensures
      var (p, u) := RelayReceived(s.pool, s.pump, key, conn, ok, now, spread);
      && p.newRelays == s.pool.newRelays
      && u.recvs == if ok && IsPoolCurrent(s.pool, key, conn) then s.pump.recvs
                    else s.pump.recvs - multiset{(key, conn)}
  {
    hide NextRedialDelay;
  }

  /** The pooled connections after a step: those kept, and the newcomer. */
  lemma ConnsAfter(s: Relays, e: RelayEvent)
    requires RelaysInv(s) && Enabled(s, e)
    ensures
      var t := Apply(s, e);
      match e
      case DialResolved(_, true) => t.pool.conns == s.pool.conns[s.pool.nextKey := s.nextConn]
      case RedialResolved(true, _, _) =>
        t.pool.conns == if s.closed then s.pool.conns else s.pool.conns[HOME_RELAY := s.nextConn]
      case Received(key, conn, ok, _, _) =>
        t.pool.conns == if !ok && IsPoolCurrent(s.pool, key, conn) then s.pool.conns - {key} else s.pool.conns
      case FoundDead(key, _, _) => t.pool.conns == s.pool.conns - {key}
      case SendFailed(key, conn, _, _) =>
        t.pool.conns == if key == HOME_RELAY && IsPoolCurrent(s.pool, key, conn) then s.pool.conns - {key} else s.pool.conns
      case _ => t.pool.conns == s.pool.conns
    ensures Apply(s, e).nextConn == s.nextConn + if e.DialResolved? || e.RedialResolved? then 1 else 0
  {
    hide PoolAgrees, ClaimsAreHeld, HomeLifecycle, ReceiveDiscipline, RetiredOnce, DialedAsKeyed, Normalize, NextRedialDelay;
  }

  lemma AddReceive(s: Relays, t: Relays, key: nat)
    requires ReceiveDiscipline(s) && t.nextConn == s.nextConn + 1
    requires Receives(t) == Receives(s) + multiset{(key, s.nextConn)}
    requires t.pool.conns == s.pool.conns[key := s.nextConn]
    ensures ReceiveDiscipline(t)
  {
    hide Receives;
    assert (key, s.nextConn) !in Receives(s);
    assert forall x :: x in Receives(t) <==> x in Receives(s) || x == (key, s.nextConn);
  }

  lemma DropReceive(s: Relays, t: Relays, x: (nat, nat))
    requires ReceiveDiscipline(s) && t.nextConn >= s.nextConn
    requires Receives(t) == Receives(s) - multiset{x}
    requires forall k :: k in t.pool.conns ==>
      k in s.pool.conns && t.pool.conns[k] == s.pool.conns[k] && (k, s.pool.conns[k]) != x
    ensures ReceiveDiscipline(t)
  {
    hide Receives;
  }

  lemma KeepReceives(s: Relays, t: Relays)
    requires ReceiveDiscipline(s) && t.nextConn >= s.nextConn
    requires Receives(t) == Receives(s)
    requires forall k :: k in t.pool.conns ==> k in s.pool.conns && t.pool.conns[k] == s.pool.conns[k]
    ensures ReceiveDiscipline(t)
  {
    hide Receives;
  }

  lemma ReceivesKept(s: Relays, e: RelayEvent)
    requires RelaysInv(s) && Enabled(s, e)
    ensures ReceiveDiscipline(Apply(s, e))
  {
    hide PoolAgrees, ClaimsAreHeld, HomeLifecycle, ReceiveDiscipline, RetiredOnce, DialedAsKeyed, Receives, Apply;
    ReceivesAfter(s, e);
    ConnsAfter(s, e);
    var t := Apply(s, e);
    match e {
      case DialResolved(d, ok) =>
        if ok {
          AddReceive(s, t, s.pool.nextKey);
        } else {
          KeepReceives(s, t);
        }
      case RedialResolved(ok, now, spread) =>
        if ok && !s.closed {
          AddReceive(s, t, HOME_RELAY);
        } else {
          KeepReceives(s, t);
        }
      case Received(key, conn, ok, now, spread) =>
        if ok && IsPoolCurrent(s.pool, key, conn) {
          KeepReceives(s, t);
        } else {
          DropReceive(s, t, (key, conn));
        }
      case _ => KeepReceives(s, t);
    }
  }

  // ----- retirement -----

  lemma RetiredAfter(s: Relays, e: RelayEvent)
    requires RelaysInv(s) && Enabled(s, e)
    ensures
      var t := Apply(s, e);
      match e
      case Received(key, _, _, _, _) => t.retired == s.retired + Retired(s.pool, t.pool, key)
      case FoundDead(key, _, _) => t.retired == s.retired + Retired(s.pool, t.pool, key)
      case SendFailed(key, _, _, _) => t.retired == s.retired + Retired(s.pool, t.pool, key)
      case _ => t.retired == s.retired
  {
    hide PoolAgrees, ClaimsAreHeld, ReceiveDiscipline, RetiredOnce, DialedAsKeyed, Normalize, NextRedialDelay;
  }

  lemma RetireKeeps(s: Relays, t: Relays, key: nat)
    requires RetiredOnce(s) && t.nextConn == s.nextConn
    requires t.retired == s.retired + Retired(s.pool, t.pool, key)
    requires t.pool.conns == s.pool.conns || t.pool.conns == s.pool.conns - {key}
    ensures RetiredOnce(t)
  {
  }

  lemma NewcomerKeeps(s: Relays, t: Relays, key: nat)
    requires RetiredOnce(s) && t.nextConn == s.nextConn + 1 && t.retired == s.retired
    requires t.pool.conns == s.pool.conns || t.pool.conns == s.pool.conns[key := s.nextConn]
    ensures RetiredOnce(t)
  {
  }

  lemma RetiredKept(s: Relays, e: RelayEvent)
    requires RelaysInv(s) && Enabled(s, e)
    ensures RetiredOnce(Apply(s, e))
  {
    hide PoolAgrees, ClaimsAreHeld, HomeLifecycle, ReceiveDiscipline, RetiredOnce, DialedAsKeyed, Apply, Retired;
    ConnsAfter(s, e);
    RetiredAfter(s, e);
    var t := Apply(s, e);
    match e {
      case DialResolved(d, ok) => NewcomerKeeps(s, t, s.pool.nextKey);
      case RedialResolved(ok, now, spread) => NewcomerKeeps(s, t, HOME_RELAY);
      case Received(key, conn, ok, now, spread) => RetireKeeps(s, t, key);
      case FoundDead(key, now, spread) => RetireKeeps(s, t, key);
      case SendFailed(key, conn, now, spread) => RetireKeeps(s, t, key);
      case _ =>
        assert t.retired + [] == t.retired;
        SamePoolKeeps(s, t);
    }
  }

  lemma SamePoolKeeps(s: Relays, t: Relays)
    requires RetiredOnce(s) && t.nextConn == s.nextConn && t.retired == s.retired && t.pool.conns == s.pool.conns
    ensures RetiredOnce(t)
  {
  }

  // ----- where keys lead -----

  /** The keys a step leaves mapped, and the record of dials. */
  lemma KeysAfter(s: Relays, e: RelayEvent)
    requires RelaysInv(s) && Enabled(s, e)
    ensures
      var t := Apply(s, e);
      && (match e
          case DialResolved(d, true) =>
            && t.pool.keys == s.pool.keys[Normalize(s.dialers[d].url) := s.pool.nextKey]
            && t.dialedTo == s.dialedTo[s.nextConn := s.dialers[d].url]
          case RedialResolved(true, _, _) =>
            t.pool.keys == s.pool.keys && t.dialedTo == s.dialedTo[s.nextConn := s.homeUrl]
          case _ => t.dialedTo == s.dialedTo && forall u :: u in t.pool.keys ==> u in s.pool.keys && t.pool.keys[u] == s.pool.keys[u])
  {
    hide PoolAgrees, ClaimsAreHeld, HomeLifecycle, ReceiveDiscipline, RetiredOnce, DialedAsKeyed, Normalize, NextRedialDelay;
  }

  lemma DialedKept(s: Relays, e: RelayEvent)
    requires RelaysInv(s) && Enabled(s, e)
    ensures DialedAsKeyed(Apply(s, e))
  {
    hide ClaimsAreHeld, HomeLifecycle, ReceiveDiscipline, RetiredOnce, Apply, Normalize;
    ConnsAfter(s, e);
    KeysAfter(s, e);
  }

  // ----- every run -----

  lemma BoundIsGood(homeUrl: Url, now: Instant)
    ensures RelaysInv(Bound(homeUrl, now))
  {
    var s := Bound(homeUrl, now);
    hide Normalize;
    assert s.pool.newRelays == [(HOME_RELAY, 0)];
    assert multiset(s.pool.newRelays) == multiset{(HOME_RELAY, 0)};
  }

  lemma StepKeepsInv(s: Relays, e: RelayEvent)
    requires RelaysInv(s) && Enabled(s, e)
    ensures RelaysInv(Apply(s, e))
  {
    PoolAgreesKept(s, e);
    ClaimsKept(s, e);
    HomeLifecycleKept(s, e);
    ReceivesKept(s, e);
    RetiredKept(s, e);
    DialedKept(s, e);
    hide PoolAgrees, ClaimsAreHeld, HomeLifecycle, ReceiveDiscipline, RetiredOnce, DialedAsKeyed, Apply;
  }

  /** A run: each event enabled where it happens. */
  ghost predicate IsRun(s: Relays, es: seq<RelayEvent>)
    decreases |es|
  {
    es == [] || (Enabled(s, es[0]) && IsRun(Apply(s, es[0]), es[1..]))
  }

  ghost function After(s: Relays, es: seq<RelayEvent>): Relays
    requires IsRun(s, es)
    decreases |es|
  {
    if es == [] then s else After(Apply(s, es[0]), es[1..])
  }

  lemma {:induction false} RunKeepsInv(s: Relays, es: seq<RelayEvent>)
    requires RelaysInv(s) && IsRun(s, es)
    ensures RelaysInv(After(s, es))
    decreases |es|
  {
    if es != [] {
      StepKeepsInv(s, es[0]);
      RunKeepsInv(Apply(s, es[0]), es[1..]);
    }
  }

  lemma {:induction false} ClosedForGood(s: Relays, es: seq<RelayEvent>)
    requires IsRun(s, es) && s.closed
    ensures After(s, es).closed
    decreases |es|
  {
    hide Apply, Enabled;
    if es != [] {
      OnlyCloseCloses(s, es[0]);
      ClosedForGood(Apply(s, es[0]), es[1..]);
    }
  }

  // ----- what a caller and an operator can rely on -----

  /** A foreign key `ensure_relay` hands out has a connection behind it. */
  lemma EnsuredKeysAreLive(s: Relays, url: Url, timedOut: bool)
    requires RelaysInv(s)
    ensures
      var r := EnsureStart(s.pool, url, s.closed).1;
      r.Pooled? ==> r.key == HOME_RELAY || r.key in s.pool.conns
    ensures
      var r := EnsureWait(s.pool, url, s.closed, timedOut);
      r.WaitKey? ==> r.key == HOME_RELAY || r.key in s.pool.conns
    ensures EnsureStart(s.pool, s.homeUrl, s.closed).1 == Pooled(HOME_RELAY)
  {
    hide Normalize;
  }

  /** The key handed out for a URL leads, while pooled, to a connection dialed to that
      URL: by a dialer, or for the home URL by `bind` or the redial. */
  lemma EnsuredKeysLeadToTheirUrl(s: Relays, url: Url, timedOut: bool)
    requires RelaysInv(s)
    ensures
      var r := EnsureStart(s.pool, url, s.closed).1;
      r.Pooled? && r.key in s.pool.conns ==> LeadsTo(s, r.key, Normalize(url))
    ensures
      var r := EnsureWait(s.pool, url, s.closed, timedOut);
      r.WaitKey? && r.key in s.pool.conns ==> LeadsTo(s, r.key, Normalize(url))
  {
    hide Normalize, PoolAgrees, ClaimsAreHeld, HomeLifecycle, ReceiveDiscipline, RetiredOnce;
  }

  /** Some dialer is dialing the URL right now. */
  ghost predicate BeingDialed(s: Relays, url: Url) {
    exists d :: Holds(s, d, Normalize(url))
  }

  /** What `ensure_relay` answers at once: the key of a known URL; on a closed endpoint
      a refusal, and no dial; else a wait exactly while another is dialing the URL,
      and the claim, changing nothing but that, exactly while nobody is. */
  lemma EnsureAnswers(s: Relays, url: Url)
    requires RelaysInv(s)
    ensures
      var known, (pool, r) := Normalize(url) in s.pool.keys, EnsureStart(s.pool, url, s.closed);
      && (known ==> r == Pooled(s.pool.keys[Normalize(url)]))
      && (r.Refused? <==> !known && s.closed)
      && (r.MustWait? <==> !known && !s.closed && BeingDialed(s, url))
      && (r.Claimed? <==> !known && !s.closed && !BeingDialed(s, url))
      && pool == s.pool.(opening := if r.Claimed? then s.pool.opening + {Normalize(url)} else s.pool.opening)
  {
    hide Normalize, PoolAgrees, HomeLifecycle, ReceiveDiscipline, RetiredOnce, DialedAsKeyed;
  }

  /** What a waiting dialer is told: the key once the URL is known; that the dial
      failed once nobody dials it any more; else that the endpoint closed, or its own
      deadline; and it waits on exactly while a dial is under way on an open endpoint. */
  lemma WaitAnswers(s: Relays, url: Url, timedOut: bool)
    requires RelaysInv(s)
    ensures
      var known, r := Normalize(url) in s.pool.keys, EnsureWait(s.pool, url, s.closed, timedOut);
      && (known ==> r == WaitKey(s.pool.keys[Normalize(url)]))
      && (r == WaitFailed(ConnectFailed) <==> !known && !BeingDialed(s, url))
      && (r == WaitFailed(Closed) <==> !known && BeingDialed(s, url) && s.closed)
      && (r == WaitFailed(TimedOut) <==> !known && BeingDialed(s, url) && !s.closed && timedOut)
      && (r.StillWaiting? <==> !known && BeingDialed(s, url) && !s.closed && !timedOut)
  {
    hide Normalize, PoolAgrees, HomeLifecycle, ReceiveDiscipline, RetiredOnce, DialedAsKeyed;
  }

  /** At most one dial per URL, and none of the home URL, whose redial is the pump's. */
  lemma OneDialPerUrl(s: Relays, c: nat, d: nat)
    requires RelaysInv(s) && c in s.dialers && d in s.dialers && s.dialers[c].Dialing? && s.dialers[d].Dialing?
    requires Normalize(s.dialers[c].url) == Normalize(s.dialers[d].url)
    ensures c == d
    ensures Normalize(s.dialers[c].url) != Normalize(s.homeUrl)
  {
    hide Normalize;
    assert Holds(s, c, Normalize(s.dialers[c].url));
    assert Holds(s, d, Normalize(s.dialers[c].url));
  }

  /** A dial that fails or is cancelled leaves its URL free: the next caller gets
      the claim, and a waiter is told. */
  lemma NeverWedged(s: Relays, d: nat, e: RelayEvent)
    requires RelaysInv(s) && Enabled(s, e)
    requires e == DialResolved(d, false) || e == DialCancelled(d)
    ensures
      var t, url := Apply(s, e), s.dialers[d].url;
      && Normalize(url) !in t.pool.opening
      && (!t.closed ==> EnsureStart(t.pool, url, t.closed).1.Claimed?)
      && EnsureWait(t.pool, url, t.closed, false) == WaitFailed(ConnectFailed)
  {
    hide Normalize;
    assert Normalize(s.dialers[d].url) in s.pool.opening;
  }

  /** A stale outcome, of a connection the pool has moved on from, retires nothing and arms nothing. */
  lemma StaleOutcomesAreIgnored(s: Relays, e: RelayEvent)
    requires RelaysInv(s) && Enabled(s, e)
    requires (e.Received? && !e.ok) || e.SendFailed?
    requires !IsPoolCurrent(s.pool, e.key, e.conn)
    ensures var t := Apply(s, e); t.pool == s.pool && t.pump.redial == s.pump.redial && t.retired == s.retired
  {
    assert s.retired + [] == s.retired;
  }

  /** Arming a redial never discards one that is still live. */
  lemma ArmingDiscardsNothing(s: Relays, e: RelayEvent)
    requires RelaysInv(s) && Enabled(s, e)
    ensures s.pump.redial.Some? && !e.RedialResolved? ==> Apply(s, e).pump.redial == s.pump.redial
  {
    hide PoolAgrees, ClaimsAreHeld, ReceiveDiscipline, RetiredOnce, DialedAsKeyed, Normalize, NextRedialDelay;
  }

  /** A foreign key that is no longer pooled never denotes a connection again,
      and the home URL maps to the home key for good. */
  lemma {:induction false} RetiredKeysStayRetired(s: Relays, es: seq<RelayEvent>, key: nat)
    requires RelaysInv(s) && IsRun(s, es)
    requires key != HOME_RELAY && key < s.pool.nextKey && key !in s.pool.conns
    ensures
      var t := After(s, es);
      && key !in t.pool.conns
      && (forall u :: u in t.pool.keys ==> t.pool.keys[u] != key)
      && t.homeUrl == s.homeUrl && Normalize(t.homeUrl) in t.pool.keys
      && t.pool.keys[Normalize(t.homeUrl)] == HOME_RELAY
    decreases |es|
  {
    if es != [] {
      StepKeepsInv(s, es[0]);
      ConnsAfter(s, es[0]);
      KeyCounterGrows(s, es[0]);
      hide RelaysInv, Apply, Enabled, Normalize;
      RetiredKeysStayRetired(Apply(s, es[0]), es[1..], key);
    }
  }

  lemma KeyCounterGrows(s: Relays, e: RelayEvent)
    requires RelaysInv(s) && Enabled(s, e)
    ensures Apply(s, e).pool.nextKey >= s.pool.nextKey && Apply(s, e).homeUrl == s.homeUrl
  {
    hide PoolAgrees, ClaimsAreHeld, ReceiveDiscipline, RetiredOnce, DialedAsKeyed, Normalize, NextRedialDelay;
  }

  // ----- an outage of the home relay, dial by dial -----

  /** This step arms a redial. */
  predicate Arms(s: Relays, e: RelayEvent)
    requires Enabled(s, e)
  {
    match e
    case SendFailed(key, conn, _, _) => key == HOME_RELAY && IsPoolCurrent(s.pool, key, conn)
    case Received(key, conn, ok, _, _) => !ok && key == HOME_RELAY && IsPoolCurrent(s.pool, key, conn)
    case FoundDead(key, _, _) => key == HOME_RELAY
    case RedialResolved(ok, _, _) => !ok && !s.closed
    case _ => false
  }

  lemma ArmingTakesTheNextDelay(s: Relays, e: RelayEvent)
    requires RelaysInv(s) && Enabled(s, e) && (e.RedialResolved? ==> !e.ok)
    requires e.SendFailed? || e.Received? || e.FoundDead? || e.RedialResolved?
    ensures
      var t := Apply(s, e);
      if Arms(s, e) then t.pump.redial.Some? && (t.pump.backoff, t.pump.redial.value) == NextRedialDelay(s.pump.backoff, e.now, e.spread)
      else t.pump.backoff == s.pump.backoff
  {
    hide RelaysInv, Normalize, NextRedialDelay;
    match e {
      case SendFailed(key, conn, now, spread) =>
        RetireHomeEffect(s.pool, s.pump, conn, now, spread);
        hide RetireHome;
      case Received(key, conn, ok, now, spread) =>
        RetireHomeEffect(s.pool, s.pump.(recvs := s.pump.recvs - multiset{(key, conn)}), conn, now, spread);
        hide RetireHome;
      case FoundDead(key, now, spread) =>
        RetireHomeEffect(s.pool, s.pump, s.pool.conns[key], now, spread);
        hide RetireHome;
      case RedialResolved(ok, now, spread) =>
        hide RetireHome;
    }
  }

  lemma OtherStepsKeepBackoff(s: Relays, e: RelayEvent)
    requires Enabled(s, e) && !(e.SendFailed? || e.Received? || e.FoundDead? || e.RedialResolved?)
    ensures Apply(s, e).pump.backoff == s.pump.backoff && !Arms(s, e)
  {
    hide Normalize, OpenResolved;
  }

  ghost predicate NoReconnect(es: seq<RelayEvent>) {
    forall i :: 0 <= i < |es| && es[i].RedialResolved? ==> !es[i].ok
  }

  /** The clock readings and random draws of the redials a run arms, in order. */
  ghost function ArmDraws(s: Relays, es: seq<RelayEvent>): (ds: seq<Draw>)
    requires IsRun(s, es)
    ensures ValidDraws(ds)
    decreases |es|
  {
    if es == [] then []
    else (if Arms(s, es[0]) then [Draw(es[0].now, es[0].spread)] else []) + ArmDraws(Apply(s, es[0]), es[1..])
  }

  /** The delays those redials wait, as found in the redial slot. */
  ghost function ArmedDelays(s: Relays, es: seq<RelayEvent>): seq<Duration>
    requires IsRun(s, es)
    decreases |es|
  {
    if es == [] then []
    else
      var t := Apply(s, es[0]);
      (if Arms(s, es[0]) && t.pump.redial.Some? then [t.pump.redial.value] else []) + ArmedDelays(t, es[1..])
  }

  lemma {:induction false} ArmedDelaysBackOff(s: Relays, es: seq<RelayEvent>)
    requires RelaysInv(s) && IsRun(s, es) && NoReconnect(es)
    ensures ArmedDelays(s, es) == Delays(s.pump.backoff, ArmDraws(s, es))
    decreases |es|
  {
    hide RelaysInv, Apply, Enabled, Arms, NextRedialDelay;
    if es != [] {
      var e, rest := es[0], es[1..];
      var t := Apply(s, e);
      StepKeepsInv(s, e);
      ArmedDelaysBackOff(t, rest);
      if e.SendFailed? || e.Received? || e.FoundDead? || e.RedialResolved? {
        ArmingTakesTheNextDelay(s, e);
      } else {
        OtherStepsKeepBackoff(s, e);
      }
      if Arms(s, e) {
        assert ArmDraws(s, es)[1..] == ArmDraws(t, rest);
      } else {
        assert ArmDraws(s, es) == ArmDraws(t, rest);
      }
    }
  }

  /** From a home connection's last healthy state until the next reconnect, the
      redials armed wait at least the backoff's floor, and so are bounded in
      number by the time the outage takes. */
  lemma OutageIsPaced(s: Relays, es: seq<RelayEvent>, time: Duration)
    requires RelaysInv(s) && IsRun(s, es) && NoReconnect(es)
    requires HOME_RELAY in s.pool.conns
    ensures
      var ds := ArmedDelays(s, es);
      && Sum(ds) >= OutageFloor(Nonzero(ds))
      && Nonzero(ds) >= |ds| - 1
      && (Sum(ds) <= time ==> |ds| <= 10 + time / REDIAL_MAX_DELAY)
  {
    hide PoolAgrees, ClaimsAreHeld, ReceiveDiscipline, RetiredOnce, DialedAsKeyed;
    ArmedDelaysBackOff(s, es);
    OutageTotal(s.pump.backoff, ArmDraws(s, es));
    if Sum(ArmedDelays(s, es)) <= time {
      DialsAreBounded(s.pump.backoff, ArmDraws(s, es), time);
    }
  }

  /** When the last successful redial among `es` resolved. */
  function LastReconnect(es: seq<RelayEvent>): Option<Instant> {
    if es == [] then None
    else if es[|es| - 1].RedialResolved? && es[|es| - 1].ok then Some(es[|es| - 1].now)
    else LastReconnect(es[..|es| - 1])
  }

  lemma {:induction false} LastReconnectSplits(e: RelayEvent, es: seq<RelayEvent>)
    ensures LastReconnect([e] + es) ==
      if LastReconnect(es).Some? then LastReconnect(es)
      else if e.RedialResolved? && e.ok then Some(e.now) else None
  {
    if es == [] {
      assert [e] + es == [e] && [e][..0] == [];
    } else {
      LastReconnectSplits(e, es[..|es| - 1]);
      assert ([e] + es)[..|es|] == [e] + es[..|es| - 1];
    }
  }

  /** While the home relay is pooled, the registration the backoff remembers is its
      own: the last successful redial's, or `bind`'s if there was none. */
  lemma {:induction false} RegistrationIsTheLastReconnect(s: Relays, es: seq<RelayEvent>)
    requires RelaysInv(s) && IsRun(s, es) && HOME_RELAY in After(s, es).pool.conns
    ensures
      var since := After(s, es).pump.backoff.homeSince;
      if LastReconnect(es).Some? then since == LastReconnect(es)
      else HOME_RELAY in s.pool.conns && since == s.pump.backoff.homeSince
    decreases |es|
  {
    hide RelaysInv, Apply, Enabled;
    if es != [] {
      var e, t := es[0], Apply(s, es[0]);
      StepKeepsInv(s, e);
      RegistrationIsTheLastReconnect(t, es[1..]);
      LastReconnectSplits(e, es[1..]);
      assert es == [e] + es[1..];
      if LastReconnect(es[1..]) == None {
        Registers(s, e);
      }
    }
  }

  /** The home relay is pooled after a step only if it was before, or the step is
      its successful redial. */
  lemma Registers(s: Relays, e: RelayEvent)
    requires RelaysInv(s) && Enabled(s, e) && HOME_RELAY in Apply(s, e).pool.conns
    ensures
      var t := Apply(s, e);
      if e.RedialResolved? && e.ok then t.pump.backoff == Backoff(0, Some(e.now))
      else HOME_RELAY in s.pool.conns && t.pump.backoff.homeSince == s.pump.backoff.homeSince
  {
    ConnsAfter(s, e);
    RedialAfter(s, e);
    assert s.pool.nextKey > HOME_RELAY;
    hide PoolAgrees, ClaimsAreHeld, ReceiveDiscipline, RetiredOnce, DialedAsKeyed, Apply, IsPoolCurrent;
  }

  /** From `bind` on, an outage's redials, one by one: the first goes at once exactly
      when the lost connection had been registered for ten seconds, and from there on
      each waits double the one before, from 10 ms to 5 s, within its jitter. */
  lemma RedialsBackOff(homeUrl: Url, now: Instant, before: seq<RelayEvent>, es: seq<RelayEvent>, i: nat)
    requires IsRun(Bound(homeUrl, now), before) && HOME_RELAY in After(Bound(homeUrl, now), before).pool.conns
    requires IsRun(After(Bound(homeUrl, now), before), es) && NoReconnect(es)
    requires i < |ArmedDelays(After(Bound(homeUrl, now), before), es)|
    ensures
      var s := After(Bound(homeUrl, now), before);
      var draws, ds := ArmDraws(s, es), ArmedDelays(s, es);
      && |draws| == |ds|
      && var since := if LastReconnect(before).Some? then LastReconnect(before).value else now;
         var established := Since(draws[0].now, since) >= 10_000_000_000;
         if established && i == 0 then ds[i] == 0
         else
           var doubled := 10_000_000 * Pow2(if established then i - 1 else i);
           Min(doubled, 5_000_000_000) <= ds[i] <= Min(2 * doubled, 5_000_000_000)
  {
    var b := Bound(homeUrl, now);
    BoundIsGood(homeUrl, now);
    assert b.pump.backoff == Backoff(0, Some(now));
    hide Bound, Apply, Enabled, PoolAgrees, ClaimsAreHeld, ReceiveDiscipline, RetiredOnce, DialedAsKeyed;
    RunKeepsInv(b, before);
    RegistrationIsTheLastReconnect(b, before);
    var s := After(b, before);
    ArmedDelaysBackOff(s, es);
    assert s.pump.backoff.attempt == 0;
    hide IsRun, After, ArmedDelays, Pow2;
    var draws := ArmDraws(s, es);
    if draws != [] {
      BackoffLength(s.pump.backoff, draws);
      OutageBacksOff(s.pump.backoff, draws, i);
    }
  }

  lemma BackoffLength(b: Backoff, draws: seq<Draw>)
    requires ValidDraws(draws) && b.attempt == 0 && draws != []
    ensures |Delays(b, draws)| == |draws|
  {
    OutageBacksOff(b, draws, 0);
  }
}

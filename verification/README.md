# Endpoint runtime model

This project models the endpoint runtime of `component-iroh`: the state record
shared by everything, the pump that owns all I/O, the resource methods, drop
guards and session tasks that interleave with it at await points, and the relay
client under it. It proves what the code's comments promise: packets reach the
right peer while a connection changes wires, relay dials exclude each other under
cancellation, the home relay is redialed once and paced, connections always have
one owner, streams carry exactly the bytes of their writes, and no wake-up is
lost.

## How it is built

The code is single-threaded and cooperative: a step is what happens between two
awaits, and the next step is any one that is ready.

- **Component machines.** `Routing`, `RelayPool`, `Redial`, `Signaling`,
  `Connections`, `Wakeups`, `SendStream`, `RecvStream`: for each part of the
  state a record of values, the operations as functions, the events that can
  happen to it, the invariants, and what follows over every run.
  `ConnectionLives` tells each connection's entry from the events alone.
- **The endpoint.** `Runtime` is the product: every step of the pump with its
  program counter, of resources, guards, sessions and waiters, over all component
  states together. `StreamCalls` says of each stream and datagram call whether it
  gives noq something to send and whether it kicks. `RuntimeSafety` proves that
  every step keeps every invariant and draws the conclusions for whole runs;
  `RuntimeRuns` projects the endpoint's runs onto the component machines', so
  their theorems carry over; `RuntimeQueues` follows each packet from noq to its
  wire, `RuntimeLives` each connection to its proved peer, `RuntimeChannels` each
  upgrade and channel to its end; `RuntimeWakes` says what a sleeping pump may owe
  and when waiters wake; `RuntimeExamples` has the runs from `bind` that show where
  code and comments part.
- **The code.** `EndpointState` has the state record as a class whose methods
  update its maps and queues in place; `PumpTask` the pump's variables and its
  stretches of code between awaits; `EndpointTasks` the resources, guards and
  session steps; `SendStream`, `RecvStream` and `RelayConn` the stream and relay
  connection objects; `LivenessSweep` the tick's sweep over those. Each method is
  proved against the function that specifies it, and lemmas named
  `...IsTheMachines` prove those functions to be the machine's steps seen through
  the fields the code keeps.
- **The two together.** In `Simulation` the code's objects carry a run of the
  machine; each step of the code is proved to be that run's next step, whatever
  the run, so the theorems over runs hold of the objects' own fields, and every
  precondition on shared state is discharged from the invariants.
- **Leaves.** `RelayFrames` is the wire framing, `RelayConn` the receive queue and
  the liveness probe as a timed automaton.

Identities that the code keeps as pointers are numbers never reused: relay
connections (`Rc::ptr_eq`), sessions, dialers. Packets carry the address noq put
on them as history. noq is a source of events, transmits and verdicts with a
stated discipline: a connection connects at most once and not after it was lost,
its handle is reused only after it drained, and a standin it addresses is one it
was given.

## Where the code and its comments part

- A channel is said to fall back to the relay it was signaled through
  (endpoint/src/endpoint_impl.rs:266-269). An offerer's slot is released when
  `dial` returns, before `upgrade` registers the channel, so its channel records
  the home relay. `Signaling.FallbackIsTheSignalingRelay` gives the exact
  condition, `RuntimeExamples.OffererFallbackExample` an input.
- Whatever gives noq something to send is said to kick the pump
  (endpoint/src/endpoint_impl.rs:404-412, and for credit freed by reads 2341-2349).
  A read that consumes a RESET does not (2360), and noq's own word that it has
  credit to send is dropped (2338), so a sleeping pump stays asleep until the next
  tick. `RuntimeWakes.ParkedPumpOwesExactlyResets` gives the exact condition over
  runs, `StreamCalls.UnkickedLoadsAreResets` that this is the only branch,
  `RuntimeExamples.ResetReadExample` an input, and `RuntimeWakes.TickTurnCollects`
  that the tick makes up for it.
- Bytes noq already delivered are said to drain before a connection's failure
  surfaces (endpoint/src/endpoint_impl.rs:2305-2306). Once the slot was reused,
  the read fails with them unread. `RecvStreams.FailureNeverJumpsAhead` gives the
  exact condition, `RecvStreams.ReusedSlotExample` an input.
- Any frame since a ping is said to answer it (core/src/relay.rs:157-162). The
  comparison is strict, so a frame at the very instant of the ping does not, and
  the wire may be declared dead one deadline after its last frame.
  `RelayClient.EarlyDeathIffTied` gives the exact condition,
  `RelayClient.TieExample` an input.
- Every successful redial resets the attempt counter
  (endpoint/src/endpoint_impl.rs:1052), so the backoff grows only between
  reconnects, and that is what `RelayPool.OutageIsPaced` speaks of.
- `ensure_relay` may register a relay after close
  (endpoint/src/endpoint_impl.rs:1636-1643); the machine allows it.

## Model

| member | source | states |
|---|---|---|
| `RuntimeSafety.EverySendReachesItsPeer` | endpoint/src/endpoint_impl.rs:555-569 | over every run from `bind`, each datagram handed to a wire for a standin went to a wire whose far end owns that standin, each signal to the peer it was published to, and the owner lookup in `drain` always succeeds |
| `RuntimeSafety.StandinsAreStable` | endpoint/src/endpoint_impl.rs:363-380 | once a peer has a standin it keeps the same one for the rest of every run, whichever wires carry it |
| `RuntimeQueues.EverySendGoesByItsRoute` | endpoint/src/endpoint_impl.rs:555-569 | over every run from `bind`: the n-th packet taken for relays, UDP or channels is the n-th one offered to that kind of wire, unaltered, and is sent over the connection then pooled under the relay key, or the channel then registered under the id, that its address was routed to when it was offered, or dropped if there is none; nothing else is ever sent |
| `RuntimeQueues.QueuesAreFifo` | endpoint/src/endpoint_impl.rs:858-913 | over every run each outbound queue is what was offered to it, in order, without the front part taken: nothing is lost, repeated or reordered; transmits, endpoint-level responses and signals alike |
| `RuntimeQueues.StepMovesTheQueues` | endpoint/src/endpoint_impl.rs:515-586 | one step of anything takes at most the front of each queue and appends exactly what it offers |
| `RuntimeQueues.PublishJoins` | endpoint/src/endpoint_impl.rs:445-448 | a live session's signal is offered to its own session's relay, for its own peer, as published |
| `RuntimeQueues.AnswersExactly` | endpoint/src/endpoint_impl.rs:613-662 | what a datagram is answered with: noq's immediate response; noq's refusal exactly when the endpoint is open and 16 are unclaimed; a failed accept's response |
| `RuntimeLives.PeersAreWhoTheyWereNamed` | endpoint/src/endpoint_impl.rs:751-770 | over every run from `bind`: a connection that entered as dialed or incoming is connected, queued, held or its dial resolved only with the identity its handshake proved, which is the dialed peer or the source named at its entry, and over a standin the standin's owner |
| `RuntimeLives.NamedAfterTheOwner` | endpoint/src/endpoint_impl.rs:588-611 | a connection over a standin is named after the standin's owner, who owns it for the rest of the run |
| `RuntimeLives.StreamsFindTheirConnection` | endpoint/src/endpoint_impl.rs:716-722 | a stream finds its connection with its latest failure, as the events tell it, exactly as long as that keeps its slot |
| `RuntimeLives.ClosedRegistersNothing` | endpoint/src/endpoint_impl.rs:464-467 | over every run a closed endpoint stays closed and registers no channel |
| `RuntimeSafety.NothingOutlivesClose` | endpoint/src/endpoint_impl.rs:704-713 | over every run: once the endpoint is closed, every connection in its slot has failed, drained or been closed, and none joins them |
| `RuntimeSafety.PumpLeavesWhenDone` | endpoint/src/endpoint_impl.rs:932-944 | the pump leaves its loop exactly when closed and every connection has failed or drained or the linger is over; then nobody is left parked |
| `RuntimeChannels.ChannelsKeepTheirFallback` | endpoint/src/endpoint_impl.rs:459-484 | over every run from its opening: a session's channel carries its peer's standin at once, and while registered names its wire, its peer and as fallback the relay an answerer was signaled through, an offerer's the home relay |
| `RuntimeChannels.DeadChannelsFallBack` | endpoint/src/endpoint_impl.rs:499-509 | a channel's death moves exactly the standin it carries, its own peer's, to the relay its entry names |
| `RuntimeChannels.UpgradesAreConserved` | endpoint/src/endpoint_impl.rs:1883-1894 | over every run, upgrades begun and outstanding are those dials asked for, each with its dial's own peer and relay |
| `RuntimeSafety.EveryRunIsGood` | endpoint/src/endpoint_impl.rs:834-1111 | every state reachable by any interleaving of pump, resource, guard and session steps satisfies all the invariants at once: routing, pool and claims, channel receives, sessions, ownership, wakers, nothing stranded but the credit of a RESET read |
| `RuntimeSafety.StepKeepsInv` | endpoint/src/endpoint_impl.rs:834-1111 | one step of anything keeps all of them, and never renames or reassigns a standin; the unkicked RESET read is inside the step relation |
| `RuntimeSafety.TaskKeepsInv` | endpoint/src/endpoint_impl.rs:1612-1976 | the part of that for resource methods, guards and session tasks, each stream and datagram call with its own kick and effect on noq |
| `RuntimeSafety.FlushKeepsInv` | endpoint/src/endpoint_impl.rs:850-944 | the part of that for the pump's turn, from `drain` to the select, with an await at every send |
| `RuntimeSafety.SelectKeepsInv` | endpoint/src/endpoint_impl.rs:946-1110 | the part of that for the select's arms and for parking in it |
| `RuntimeSafety.BindIsGood` | endpoint/src/endpoint_impl.rs:1777-1788 | the endpoint as `bind` leaves it satisfies them |
| `RuntimeSafety.ParkedPumpOwesOnlyResets` | endpoint/src/endpoint_impl.rs:404-412 | a pump that is parked and will not be resumed has nothing queued, to arm or to spawn and no kick pending; noq has something for it to collect exactly when a RESET read freed credit since the last drain |
| `RuntimeWakes.ParkedPumpOwesExactlyResets` | endpoint/src/endpoint_impl.rs:2338-2360 | the same over every run from `bind`, said of the run's own events: noq has something to collect if and only if, looking back, a read that consumed a RESET comes before any drain |
| `RuntimeWakes.FlagIsTheRun` | endpoint/src/endpoint_impl.rs:2332-2360 | what the machine records about such reads is what the run's events say, however the reads, kicks and drains interleave |
| `RuntimeWakes.TickTurnCollects` | endpoint/src/endpoint_impl.rs:1069-1072 | the turn after the next tick, whatever tasks come in between, leaves noq with nothing to collect |
| `RuntimeExamples.ResetReadExample` | endpoint/src/endpoint_impl.rs:2360 | an input that shows it: for every home URL and peer, a run from `bind` that dials, connects, parks and then reads a RESET leaves the pump parked, not kicked, with noq waiting |
| `RuntimeWakes.AnswersWake` | endpoint/src/endpoint_impl.rs:1387-1403 | no wake-up is lost: a step that gives a parked check of `accept`, a dial, `ensure_relay` or a session its answer fires that waiter's waker; the one other way a dial's check is answered, its slot being reused, leaves the pump owing the next turn and its wake |
| `RuntimeWakes.WakesAllReadies` | endpoint/src/endpoint_impl.rs:395-402 | a drain with progress or after a tick, a signal, a relay dial's end, the redial's success and the endpoint's close each ready everyone parked |
| `RuntimeWakes.ClosesAreFlushed` | endpoint/src/endpoint_impl.rs:2228-2242 | a task that closes a connection, by guard, resource or the endpoint's close, leaves noq its close to send and a kick pending |
| `RuntimeWakes.InputsAreDrained` | endpoint/src/endpoint_impl.rs:946-1110 | a datagram given to noq, or a tick's timeouts, put the pump at the top of its turn with noq to collect from |
| `RuntimeSafety.KickResumesParkedPump` | endpoint/src/endpoint_impl.rs:1405-1420 | a kick always resumes a parked pump |
| `RuntimeSafety.TaskKicks` | endpoint/src/endpoint_impl.rs:404-412 | every step outside the pump that gives it work leaves a kick pending, but for a read that consumes a RESET, whose exact effect is stated: noq gets credit to send and nothing else changes |
| `StreamCalls.UnkickedLoadsAreResets` | endpoint/src/endpoint_impl.rs:2260-2488 | branch by branch over the stream and datagram methods: a call leaves noq something to send without kicking if and only if it is a read that consumed a RESET and freed credit |
| `RuntimeSafety.ResolvedReceiveKeeps` | endpoint/src/endpoint_impl.rs:1008-1033 | a channel's receive, resolved and re-armed or retired, keeps one receive per live channel, counting those waiting to be armed, and at most one per id |
| `RuntimeSafety.RegisterKeepsReceives` | endpoint/src/endpoint_impl.rs:459-484 | so does registering a channel |
| `RuntimeSafety.SelectReceives` | endpoint/src/endpoint_impl.rs:946-1110 | so does every arm of the select |
| `RuntimeSafety.TickTurnResumesAll` | endpoint/src/endpoint_impl.rs:1069-1072 | whatever tasks execute between a tick and the next turn, that turn fires the waker of everyone then waiting |
| `RuntimeRuns.RunsRelays` | endpoint/src/endpoint_impl.rs:834-1111 | every run of the endpoint is a run of the pool machine on its pool, so the pool's run theorems hold in the endpoint |
| `RuntimeRuns.RetiredForGood` | endpoint/src/endpoint_impl.rs:486-494 | in the whole endpoint, a retired foreign key never denotes a connection again |
| `RuntimeRuns.RunsOwners` | endpoint/src/endpoint_impl.rs:834-1111 | every run of the endpoint is a run of the ownership machine on its connections |
| `RuntimeRuns.StaleInEveryRun` | endpoint/src/endpoint_impl.rs:716-722 | in the whole endpoint, a reference whose slot was reused is stale for the rest of the run |
| `RuntimeRuns.ConnectionsAreAccountedFor` | endpoint/src/endpoint_impl.rs:1861-1962 | over every run from `bind`: a live connection has exactly one owner or is an accepted one in its handshake; unclaimed ones number at most 16; acceptors took connections once each, in the order they connected |
| `RuntimeRuns.SurfacedInEveryRun` | endpoint/src/endpoint_impl.rs:751-770 | the same over every run of the endpoint; `RuntimeLives.PeersAreWhoTheyWereNamed` says which identity that is |
| `RuntimeRuns.ExpectedPeerOwnsTheStandin` | endpoint/src/endpoint_impl.rs:588-611 | a connection over a standin, dialed or incoming by relay or channel, must authenticate as the standin's owner |
| `Routing.StandinsAreDistinct` | endpoint/src/endpoint_impl.rs:1363-1377 | below 2^32 the host number is recoverable from the standin, so standins do not collide, and each lies in 2001:db8:77::/48 |
| `Routing.FreshStandin` | endpoint/src/endpoint_impl.rs:374-379 | the counter's next standin belongs to nobody yet |
| `Routing.AddrForPeerKeeps` | endpoint/src/endpoint_impl.rs:370-380 | minting or finding a standin keeps the address book inverse, the route domain equal to the standins, the channel table and every queued item well addressed; the answer is owned by the peer |
| `Routing.RegisterChannelKeeps` | endpoint/src/endpoint_impl.rs:459-484 | so does registering a channel, and the peer's standin is then routed over it |
| `Routing.RetireChannelRoutes` | endpoint/src/endpoint_impl.rs:499-509 | retiring a channel moves exactly the standin routed over it, to its recorded fallback relay |
| `Routing.RetireChannelKeeps` | endpoint/src/endpoint_impl.rs:499-509 | and keeps every routing invariant; the id names no channel afterwards |
| `Routing.RouteTransmitKeeps` | endpoint/src/endpoint_impl.rs:555-569 | queueing a transmit by its current route keeps every queue well addressed |
| `Routing.PushResponseKeeps` | endpoint/src/endpoint_impl.rs:664-678 | so does queueing an endpoint-level response |
| `Routing.DialStandinKeeps` | endpoint/src/endpoint_impl.rs:1866-1878 | an explicit dial keeps the invariants, renames no standin, and its address is owned by the dialed peer |
| `Routing.DialStandinRoutes` | endpoint/src/endpoint_impl.rs:1866-1878 | it moves the peer's standin to the dialed relay exactly while no channel carries it, and no other route |
| `Routing.MoveRouteKeeps` | endpoint/src/endpoint_impl.rs:1873-1875 | a standin may move to any relay, or to a live channel of its own peer, without breaking any of them |
| `Routing.CurrentPathIsTheNextWire` | endpoint/src/endpoint_impl.rs:1986-2003 | `current_path` names exactly the queue the next transmit to that remote joins |
| `Routing.PopRelayReaches` | endpoint/src/endpoint_impl.rs:858-883 | a relay item popped at any later time is dropped or reaches its addressee |
| `Routing.PopUdpReaches` | endpoint/src/endpoint_impl.rs:884-894 | so for UDP: never a standin, always the very address |
| `Routing.PopChannelReaches` | endpoint/src/endpoint_impl.rs:895-913 | so for channels: a live channel's far end is the addressee, a retired one drops |
| `RelayPool.StepKeepsInv` | endpoint/src/endpoint_impl.rs:382-393 | every step of dialers, pump and close keeps pool/URL agreement, held claims, the home lifecycle, the receive discipline and single retirement |
| `RelayPool.RunKeepsInv` | endpoint/src/endpoint_impl.rs:834-1111 | hence every run does |
| `RelayPool.BoundIsGood` | endpoint/src/endpoint_impl.rs:1777-1788 | `bind` establishes them |
| `RelayPool.PoolAgreesKept` | endpoint/src/endpoint_impl.rs:385-393 | the URL map stays one-to-one, its foreign image stays the pool's foreign keys, the home URL stays on the home key |
| `RelayPool.ClaimsKept` | endpoint/src/endpoint_impl.rs:1586-1669 | a URL is being opened exactly when one live dialer holds its claim, and is then not mapped; whatever is cancelled |
| `RelayPool.HomeLifecycleKept` | endpoint/src/endpoint_impl.rs:1034-1064 | never both a home connection and a redial; while open, one of them |
| `RelayPool.ReceivesKept` | endpoint/src/endpoint_impl.rs:946-995 | no connection is received twice, every pooled one exactly once, counting those waiting to be armed |
| `RelayPool.RetiredKept` | endpoint/src/endpoint_impl.rs:1189-1201 | each connection is retired at most once and never pooled again |
| `RelayPool.EnsuredKeysAreLive` | endpoint/src/endpoint_impl.rs:1616-1669 | a foreign key handed to a caller has a connection behind it; the home URL yields the home key |
| `RelayPool.OneDialPerUrl` | endpoint/src/endpoint_impl.rs:1626-1636 | two dials in flight never share a normalized URL, and none is of the home URL |
| `RelayPool.SameKeyIffSlashesApart` | endpoint/src/endpoint_impl.rs:1380-1382 | two URLs share a key if and only if they differ in trailing slashes alone |
| `RelayPool.EnsuredKeysLeadToTheirUrl` | endpoint/src/endpoint_impl.rs:1616-1669 | the key handed out for a URL leads, while pooled, to a connection dialed to that URL |
| `RelayPool.DialedKept` | endpoint/src/endpoint_impl.rs:1636-1648 | every step keeps that of every mapped URL |
| `RelayPool.EnsureAnswers` | endpoint/src/endpoint_impl.rs:1616-1636 | a known URL's key even when closed; else refused exactly when closed, made to wait exactly while another is dialing the URL, and given the claim exactly while nobody is |
| `RelayPool.WaitAnswers` | endpoint/src/endpoint_impl.rs:1650-1668 | a waiter gets the key once known, the failure exactly when nobody dials the URL any more, then the endpoint's close, then its deadline, and waits on only with none of these |
| `RelayPool.NeverWedged` | endpoint/src/endpoint_impl.rs:1586-1602 | after a failed or cancelled dial the next caller gets the claim and a waiter is told of the failure |
| `RelayPool.StaleOutcomesAreIgnored` | endpoint/src/endpoint_impl.rs:973-976 | a failure of a connection the pool has moved on from changes no pool entry, arms nothing and retires nothing |
| `RelayPool.ArmingDiscardsNothing` | endpoint/src/endpoint_impl.rs:839-841 | no step replaces a redial that is still live |
| `RelayPool.RetiredKeysStayRetired` | endpoint/src/endpoint_impl.rs:486-494 | over every run a retired foreign key denotes nothing again and the home URL stays on the home key |
| `RelayPool.ArmedDelaysBackOff` | endpoint/src/endpoint_impl.rs:1226-1237 | between reconnects, the delays found in the redial slot are exactly the backoff's sequence for the draws of the redials armed |
| `RelayPool.OutageIsPaced` | endpoint/src/endpoint_impl.rs:1208-1237 | in an outage the redials armed take at least the backoff's floor, so a time bounds their number |
| `RelayPool.RegistrationIsTheLastReconnect` | endpoint/src/endpoint_impl.rs:1050-1052 | over every run, while the home relay is pooled the registration the backoff remembers is that of its last successful redial, or `bind`'s |
| `RelayPool.RedialsBackOff` | endpoint/src/endpoint_impl.rs:1222-1237 | over every run from `bind`, an outage's redials one by one: at once exactly when the lost connection was registered for ten seconds, then doubling from 10 ms to 5 s, each within its jitter |
| `Redial.BaseIsCappedDoubling` | endpoint/src/endpoint_impl.rs:1208-1212 | no step saturates or overflows: the base is 10 ms doubled per attempt, capped at 5 s, for every attempt number |
| `Redial.DelayBounds` | endpoint/src/endpoint_impl.rs:1203-1220 | every jittered delay lies between the capped doubling and the capped double of it |
| `Redial.JitterIsTheDrawsShare` | endpoint/src/endpoint_impl.rs:1213-1220 | the jitter is the draw's share of the base out of 65535, to within the division's truncation; a larger draw never waits less and a full one all but doubles the base |
| `Redial.OutageBacksOff` | endpoint/src/endpoint_impl.rs:1226-1237 | each delay of an outage lies between its own doubling and the double of that, from 10 ms capped at 5 s, after a first one of zero exactly when established |
| `Redial.BackedOff` | endpoint/src/endpoint_impl.rs:1226-1237 | with no registration pending, no delay is zero and the total is at least the sum of the capped doublings |
| `Redial.OutageTotal` | endpoint/src/endpoint_impl.rs:1222-1237 | a zero delay comes first or not at all, exactly when the lost connection was registered at least 10 s; n nonzero ones take 10 ms (2^n - 1) up to nine and 5.11 s + 5 s (n - 9) beyond |
| `Redial.DialsAreBounded` | endpoint/src/endpoint_impl.rs:1226-1237 | hence at most 10 + t / 5 s dials in an outage of length t |
| `Signaling.SlotIffOneSession` | endpoint/src/endpoint_impl.rs:183-189 | a peer's slot is held exactly while one session of it lives; its inbox exists only then and holds at most 64 |
| `Signaling.BeginUpgradeKeeps` | endpoint/src/webrtc.rs:256-261 | beginning an upgrade keeps the session invariants; refused, it touches nobody's slot or session |
| `Signaling.ReceiveSignalKeeps` | endpoint/src/endpoint_impl.rs:1311-1338 | so does filing an inbound signal, with or without spawning an answerer |
| `Signaling.ReadSignalKeeps` | endpoint/src/endpoint_impl.rs:450-453 | so does reading: what a session has read and has yet to read is, in order, what was filed during its own tenure |
| `Signaling.EndSessionKeeps` | endpoint/src/webrtc.rs:106-117 | so does a session's end; the slot is free afterwards |
| `Signaling.FallbackIsTheSignalingRelay` | endpoint/src/endpoint_impl.rs:468 | a channel falls back to the relay it was signaled through if and only if its session is an answerer's or that relay is the home relay; an offerer's always falls back to the home relay |
| `RuntimeExamples.OffererFallbackExample` | endpoint/src/webrtc.rs:247-261 | an input that shows it: for any foreign URL and any peer, a run from `bind` in which a session signaled through that relay opens a channel that falls back to the home relay |
| `Signaling.SignalFindsItsSession` | endpoint/src/endpoint_impl.rs:1319-1329 | an inbound signal finds the one session of its source, or starts an answerer through the relay it came by with that signal first in its inbox |
| `Signaling.SignalsAreFiled` | endpoint/src/endpoint_impl.rs:1311-1338 | discarded when disabled or closed; else last in its source's inbox unless 64 are unread there, no other inbox or held slot changing; spawns exactly when no slot was held |
| `Signaling.SignalsReachTheirSession` | endpoint/src/endpoint_impl.rs:1319-1335 | the one session of the source, and no other, has it filed |
| `Connections.StepKeepsInv` | endpoint/src/endpoint_impl.rs:613-804 | every noq event, dial poll, cancellation, accept, close and drop keeps fresh epochs, accept order, single ownership and the backlog bound |
| `Connections.RunKeepsInv` | endpoint/src/endpoint_impl.rs:613-804 | hence every run does |
| `Connections.QueuedKeeps` | endpoint/src/endpoint_impl.rs:753-759 | the handshake-to-queue move gives the connection its owner and conserves the backlog count |
| `Connections.IncomingKeeps` | endpoint/src/endpoint_impl.rs:628-656 | an incoming attempt past the backlog makes no entry; otherwise the bound still holds |
| `Connections.DialPollKeeps` | endpoint/src/endpoint_impl.rs:1906-1929 | whatever a poll of a dial finds, the invariants hold after it: success moves the ownership from guard to resource, failure ends it |
| `Connections.AcceptStepIsPoll` | endpoint/src/endpoint_impl.rs:1939-1962 | what the accept poll yields becomes exactly one resource |
| `Connections.StaleReferencesDoNothing` | endpoint/src/endpoint_impl.rs:716-722 | close, drop, cancellation and polls through a reused slot's old reference change no entry |
| `Connections.StaleForever` | endpoint/src/endpoint_impl.rs:716-722 | over every run a stale reference stays stale: epochs are never reissued |
| `Connections.AcceptedOnceInOrder` | endpoint/src/endpoint_impl.rs:1939-1962 | acceptors take connections at most once, in the order they connected, skipping only those whose slot was reused |
| `Connections.EveryLiveConnectionIsOwned` | endpoint/src/endpoint_impl.rs:1551-1580 | over every run a live connection has exactly one of queue, armed guard or resource as its owner, or none while an accepted handshake lasts; the backlog holds |
| `Connections.CloseReachesAll` | endpoint/src/endpoint_impl.rs:704-713 | the endpoint's close closes exactly the connections neither failed nor drained, and changes nothing else of any |
| `Connections.NothingComesAlive` | endpoint/src/endpoint_impl.rs:724-804 | only a newcomer is live where none was |
| `ConnectionLives.EveryLifeIsTold` | endpoint/src/endpoint_impl.rs:724-804 | over every run after a connection entered its slot, each field of its entry, while it keeps the slot, is what the events since say: name, proved identity, latest failure with its reason, drained, closed while unended |
| `ConnectionLives.SurfacedProvedItsName` | endpoint/src/endpoint_impl.rs:751-762 | a connection is surfaced or shown connected only with an identity a handshake event since proved, equal to the name it entered with |
| `ConnectionLives.WrongIdentityIsNeverSurfaced` | endpoint/src/endpoint_impl.rs:763-770 | a handshake that proved another identity leaves the connection failed, closed, without a peer and never surfaced |
| `ConnectionLives.DialAnswersItsLife` | endpoint/src/endpoint_impl.rs:1906-1929 | a dial is answered well exactly when its handshake proved the dialed peer and nothing failed since; else by the latest failure, a lost transport or a wrong identity as a failed connect; and as closed once its slot is reused |
| `ConnectionLives.HandshakeHoldsAPlace` | endpoint/src/endpoint_impl.rs:628-656 | an incoming connection counts against the backlog exactly until its handshake ended, it failed or it drained |
| `ConnectionLives.UnendedIsUnsettled` | endpoint/src/endpoint_impl.rs:932-944 | a connection neither failed nor drained keeps the pump from calling all settled, and nothing else does |
| `Connections.StepKeepsAuthentic` | endpoint/src/endpoint_impl.rs:751-770 | every step keeps: a connected entry has a proved identity, agreeing with what the entry expects, and a resource's current entry is connected; `ConnectionLives.SurfacedProvedItsName` ties that to the events |
| `Connections.SurfacedIsAuthentic` | endpoint/src/endpoint_impl.rs:751-770 | hence nothing is surfaced without a proved identity its entry expects |
| `Wakeups.WakeResumesAll` | endpoint/src/endpoint_impl.rs:395-402 | a wake resumes everyone parked before it |
| `SendStreams.PassCommits` | endpoint/src/endpoint_impl.rs:2275-2293 | one pass commits exactly the bytes it advances over and reports success only at the payload's end |
| `SendStreams.PassEndsByItsAnswer` | endpoint/src/endpoint_impl.rs:2275-2291 | a pass ends where noq's answers first stop the flow: well exactly when they took the whole payload, with the peer's code exactly when it stopped the stream, as closed exactly when noq says so, and parked on all else |
| `SendStreams.WriteEndsForACause` | endpoint/src/endpoint_impl.rs:2260-2298 | a write in flight ends exactly for a cause, with that cause's result: cancelled, slot gone, connection failed, noq's refusal, payload done; without one it stays parked |
| `SendStreams.EveryEndHasItsCause` | endpoint/src/endpoint_impl.rs:2390-2449 | over every run, each write that ended has such a cause in the run, at that moment and with that result |
| `SendStreams.AdmittedIffIdle` | endpoint/src/endpoint_impl.rs:2391-2398 | a write is admitted exactly when none is in flight and the stream is not taken; a refused call changes nothing |
| `SendStreams.FinishAnswers` | endpoint/src/endpoint_impl.rs:2369-2411 | `finish` is refused without effect under a write; it answers well exactly when the FIN goes out, else says what is wrong |
| `SendStreams.EndedIffAsked` | endpoint/src/endpoint_impl.rs:2369-2425 | over every run the stream is marked ended exactly when an admitted finish or a reset asked for it |
| `SendStreams.DropLeavesNoneWaiting` | endpoint/src/endpoint_impl.rs:1487-1494 | over every run a dropped stream is reset exactly when nobody asked for its end and its connection keeps its slot |
| `SendStreams.ResetReaches` | endpoint/src/endpoint_impl.rs:2413-2425 | a reset reaches noq exactly while the connection keeps its slot |
| `SendStreams.SendStreamRes.WritePass` | endpoint/src/endpoint_impl.rs:2275-2298 | the pass loop does what the pass specification says and kicks exactly when bytes were committed |
| `SendStreams.SendStreamRes.BeginWrite` | endpoint/src/endpoint_impl.rs:2391-2398 | one writer at a time; a refused call changes nothing; `write-via-stream` takes the stream for good |
| `SendStreams.SendStreamRes.EndWrite` | endpoint/src/endpoint_impl.rs:1541-1549 | the claim, and only it, is released on every exit |
| `SendStreams.SendStreamRes.FinishCall` | endpoint/src/endpoint_impl.rs:2402-2411 | refused under a write or after `write-via-stream`; otherwise as `do_finish`; kicks exactly when a FIN was issued |
| `SendStreams.SendStreamRes.FinishClaimed` | endpoint/src/endpoint_impl.rs:2369-2387 | marks the stream ended; FIN and kick only through a live, sound connection, with noq's refusals mapped |
| `SendStreams.SendStreamRes.ResetCall` | endpoint/src/endpoint_impl.rs:2413-2425 | marks the stream ended; resets and kicks exactly while the resource's connection is still in its slot |
| `SendStreams.SendStreamRes.Drop` | endpoint/src/endpoint_impl.rs:1487-1494 | an ended stream is left alone without a kick, any other is reset |
| `SendStreams.StepKeepsInv` | endpoint/src/endpoint_impl.rs:2260-2301 | every call, poll and cancellation keeps one writer, byte exactness and nothing after the FIN |
| `SendStreams.StreamIsExact` | endpoint/src/endpoint_impl.rs:2390-2449 | over every run the committed bytes are, in order, one prefix per admitted write, the whole payload of each that returned ok, and the FIN ends them |
| `SendStreams.NoFinUnderAWrite` | endpoint/src/endpoint_impl.rs:2402-2411 | `finish` issues no FIN while a write is in flight; `write_via_stream`'s FIN follows its whole payload |
| `RecvStreams.CleanEndExactly` | endpoint/src/endpoint_impl.rs:2322-2362 | a poll reports a clean end exactly at the FIN or when noq dropped the stream with no failure recorded |
| `RecvStreams.RecvStreamRes.ReadCall` | endpoint/src/endpoint_impl.rs:2452-2465 | answers at once or takes the claim, in the code's order of checks |
| `RecvStreams.RecvStreamRes.ReadPoll` | endpoint/src/endpoint_impl.rs:2307-2363 | one poll of a parked read: bytes and the FIN kick, a RESET does not; what is not bytes is latched, and the claim released |
| `RecvStreams.RecvStreamRes.ReadCancelled` | endpoint/src/endpoint_impl.rs:1541-1549 | a dropped read gives back the claim and consumes nothing |
| `RecvStreams.RunKeepsInv` | endpoint/src/endpoint_impl.rs:2452-2477 | every run keeps the read half's invariants: one reader, prefix, latch |
| `RecvStreams.NewReceiverIsGood` | endpoint/src/endpoint_impl.rs:1516-1528 | a stream just opened satisfies them |
| `RecvStreams.ReadsAreExact` | endpoint/src/endpoint_impl.rs:2452-2477 | over every run of a new stream read by `read`, the chunks returned concatenate to exactly the bytes taken, a prefix of what arrived; a clean end means the FIN and all of it; at most one read is parked |
| `RecvStreams.TerminalRepeats` | endpoint/src/endpoint_impl.rs:1504-1509 | after the first terminal outcome every later read returns it and no byte is taken |
| `RecvStreams.FailureNeverJumpsAhead` | endpoint/src/endpoint_impl.rs:2352-2359 | with bytes unread, and the stream neither torn down nor reset, a poll fails if and only if the slot was reused; any other failure is the recorded one; a failed connection never reads as a clean end |
| `RecvStreams.PollsTellTheStream` | endpoint/src/endpoint_impl.rs:2307-2363 | a poll's answer from the stream's state alone: slot gone, state torn down, reset with its code, unread bytes, FIN, connection failure, in that order; parked exactly with none of these |
| `RecvStreams.FirstOutcomeStands` | endpoint/src/endpoint_impl.rs:2466-2476 | the first outcome that is not bytes is the result of every later call of any run |
| `RecvStreams.CallsAnswerAtOnce` | endpoint/src/endpoint_impl.rs:2452-2465 | the claim is taken exactly by a call that finds no `read-via-stream`, no latched outcome, something to read and no read in flight; each of these answers as documented |
| `RecvStreams.ReusedSlotExample` | endpoint/src/endpoint_impl.rs:2315-2317 | an input that shows it: a run in which a read fails with two bytes unread |
| `RecvStreams.CancelledReadsTakeNothing` | endpoint/src/endpoint_impl.rs:2452-2477 | a cancelled or still parked read has consumed nothing |
| `RelayFrames.SplitTag` | core/src/relay_frames.rs:41-53 | the shifting loop yields the first byte's low six bits and the rest, big-endian; nothing is shifted out; none exactly for an empty or short frame |
| `RelayFrames.SplitOfEncode` | core/src/relay_frames.rs:41-53 | it inverts the encoding of section 16 of RFC 9000 at all four lengths, for every value that fits and any suffix |
| `RelayFrames.EncodeOfSplit` | core/src/relay_frames.rs:41-53 | everything it accepts is such an encoding of what it returns |
| `RelayFrames.SplitIffEncoded` | core/src/relay_frames.rs:41-53 | so it accepts exactly those encodings |
| `RelayFrames.EncodeClientDatagram` | core/src/relay_frames.rs:62-70 | the frame's tag splits off, and single-datagram decode of its body returns the address and payload unchanged |
| `RelayFrames.EncodeProbe` | core/src/relay_frames.rs:97-112 | a ping or pong frame splits into its tag and its eight bytes |
| `RelayFrames.ChunksAreTheSegmentation` | core/src/relay_frames.rs:124-133 | the batch split is the one and only way to cut the contents, in order, into nonempty pieces all of the segment size but the last |
| `RelayFrames.BatchRoundTrip` | core/src/relay_frames.rs:114-142 | decoding a laid-out batch segments its contents under its source; a zero segment size is refused |
| `RelayClient.RelayConn.constructor` | core/src/relay.rs:94-100 | a connection starts with nothing pending and its inbound stamp at the connect |
| `RelayClient.RelayConn.RecvDatagram` | core/src/relay.rs:112-155 | over a connection's life, datagrams delivered plus those pending equal, in order, the decode of every consumed frame; each well-formed ping got its pong; it fails exactly on a socket error or an unsendable pong |
| `RelayClient.RelayConn.Absorb` | core/src/relay.rs:119-153 | one receipt: stamped if a message of any kind, dispatched, a ping answered |
| `RelayClient.Dispatch` | core/src/relay.rs:131-153 | a binary message yields the datagrams its layout carries, or the ping to answer, never both |
| `RelayClient.SingleIsCarried` | core/src/relay.rs:131-138 | a frame tagged 6, at any tag length, carries exactly one datagram: its source and the bytes after the ECN byte |
| `RelayClient.BatchIsCarried` | core/src/relay.rs:131-138 | a frame tagged 7 carries, all from its source, the segments of its contents; none with a zero segment size |
| `RelayClient.OnlyThoseCarry` | core/src/relay.rs:131-153 | nothing else carries a datagram: no text, no other tag, no payload too short |
| `RelayClient.PingsAreFramed` | core/src/relay.rs:139-150 | a ping is exactly a frame tagged 9 with eight bytes, and those are what its pong carries |
| `RelayClient.OnlyThoseBreak` | core/src/relay.rs:119-150 | a receive fails exactly on a socket failure or a ping that cannot be answered |
| `RelayClient.RelayConn.ProbeStep` | core/src/relay.rs:157-183 | one probe step extends the connection's own history, and says dead if and only if a ping of that history is overdue, for a connection always stepped with one policy |
| `RelayClient.RelayConn.MoveProbe` | core/src/relay.rs:157-183 | the three fields move as the automaton does; the sequence number wraps at 2^64 |
| `RelayClient.OverdueIsDead` | core/src/relay.rs:157-175 | the automaton's next verdict over any history is dead exactly when some ping in it has gone its deadline with no strictly later frame |
| `LivenessSweep.ProbePool` | endpoint/src/endpoint_impl.rs:1073-1107 | the sweep steps every pooled connection once; its dead and its pings are, in order, exactly those of the verdicts |
| `LivenessSweep.DeadsAreTheDead` | endpoint/src/endpoint_impl.rs:1082-1107 | membership in the sweep's dead, both ways |
| `LivenessSweep.PingsKeepTheirPlace` | endpoint/src/endpoint_impl.rs:1084-1092 | every connection whose verdict is a ping has it sent, with the verdict's payload, in the sweep's order |
| `LivenessSweep.OnlyPingsArePinged` | endpoint/src/endpoint_impl.rs:1084-1092 | and nothing else is sent |
| `LivenessSweep.SilentWiresAreFound` | endpoint/src/endpoint_impl.rs:253-259 | a silent wire is pinged 15 s after its last frame and found dead 20 s after it, each within the sweep's gaps |
| `LivenessSweep.RetiredIffOverdue` | endpoint/src/endpoint_impl.rs:1082-1107 | a tick retires a connection if and only if one of its own pings has gone the full deadline with no strictly later frame |
| `RelayClient.DeadIffPingUnanswered` | core/src/relay.rs:157-175 | a step says dead if and only if some earlier ping has gone its full deadline with no strictly later frame |
| `RelayClient.AtMostOnePingOutstanding` | core/src/relay.rs:163-183 | between two pings there is a frame strictly later than the first |
| `RelayClient.PingsAreNumbered` | core/src/relay.rs:176-183 | over a connection's life each ping carries its own number, counted from one modulo 2^64 |
| `RelayClient.LittleEndianReads` | core/src/relay.rs:176-183 | as eight bytes, least significant first |
| `RelayClient.DetectionWindow` | core/src/relay.rs:163-183 | a wire silent from L, stepped at gaps of at most d, is pinged once and declared dead no earlier than L + quiet + deadline and before that plus 2 d |
| `RelayClient.EarlyDeathIffTied` | core/src/relay.rs:165-172 | the lower end of that window holds of every continuation of a silence if and only if the last frame did not arrive at the very instant of an outstanding ping |
| `RelayClient.TiedWindow` | core/src/relay.rs:165-172 | in that one remaining case death comes at L + deadline, within one gap |
| `RelayClient.TieExample` | core/src/relay.rs:165-172 | an input that shows it: ping at 15, frame at 15, dead at 20 |
| `EndpointState.State.constructor` | endpoint/src/endpoint_impl.rs:330-361 | the empty state |
| `EndpointState.State.WakeWaiters` | endpoint/src/endpoint_impl.rs:395-402 | draining the waiters fires each one's waker and leaves none parked |
| `EndpointState.State.KickPump` | endpoint/src/endpoint_impl.rs:404-412 | sets the pending kick and fires the pump's parked waker, if any |
| `EndpointState.State.Park` | endpoint/src/endpoint_impl.rs:1392-1403 | a waiter whose check has no answer is parked |
| `EndpointState.State.AddrForPeer` | endpoint/src/endpoint_impl.rs:370-380 | moves the address book and routes as the routing specification, and returns its standin |
| `EndpointState.State.RegisterChannel` | endpoint/src/endpoint_impl.rs:459-484 | refuses on a closed endpoint and closes the wire, with no other effect; else registers with the held slot's relay, or the home relay, as fallback, and kicks |
| `EndpointState.State.RetireChannel` | endpoint/src/endpoint_impl.rs:499-509 | as the routing specification: table entry and route |
| `EndpointState.State.RegisterRelay` | endpoint/src/endpoint_impl.rs:385-393 | as the pool specification, with the next key, and kicks |
| `EndpointState.State.RetireRelay` | endpoint/src/endpoint_impl.rs:490-494 | pool entry and URL mapping go together; the retired connection is returned |
| `EndpointState.State.BeginSignaling` | endpoint/src/endpoint_impl.rs:422-430 | claims a free slot; a held one is left as it is |
| `EndpointState.State.EndSignaling` | endpoint/src/endpoint_impl.rs:433-436 | slot and inbox go together |
| `EndpointState.State.PushSignalOutbound` | endpoint/src/endpoint_impl.rs:445-448 | queues the signal to that relay and peer, and kicks |
| `EndpointState.State.PopSignalInbox` | endpoint/src/endpoint_impl.rs:451-453 | takes the oldest unread signal, if any |
| `EndpointState.State.HandleSignal` | endpoint/src/endpoint_impl.rs:1311-1338 | discards when disabled or closed; else claims a free slot, files within the cap, wakes the waiters, and says whether to spawn an answerer |
| `EndpointState.State.OnEvent` | endpoint/src/endpoint_impl.rs:724-804 | moves entry and accept queue as the ownership specification for each event |
| `EndpointState.State.RouteOut` | endpoint/src/endpoint_impl.rs:555-569 | one transmit joins the queue of its destination's current wire |
| `EndpointState.State.Drain` | endpoint/src/endpoint_impl.rs:515-586 | over all that noq yields, routes, queues and entries move as the specification folds them; progress exactly when noq yielded something |
| `EndpointState.State.PushResponse` | endpoint/src/endpoint_impl.rs:664-678 | a response joins the queue its source came by |
| `EndpointState.State.HandleDatagram` | endpoint/src/endpoint_impl.rs:613-662 | each verdict of noq, closed endpoint, full backlog and failed accept included, has exactly its effect on entries and queues |
| `EndpointState.State.HandleRelayDatagram` | endpoint/src/endpoint_impl.rs:588-591 | the datagram enters under its source's standin |
| `EndpointState.State.HandleChannelDatagram` | endpoint/src/endpoint_impl.rs:597-611 | likewise by channel; a retired channel's datagram has no effect |
| `EndpointState.State.CloseAll` | endpoint/src/endpoint_impl.rs:704-713 | every entry neither failed nor drained is closed, no other |
| `EndpointState.State.CloseConn` | endpoint/src/endpoint_impl.rs:2228-2242 | closes only the caller's own live connection, and kicks exactly then |
| `PumpTask.NewShared` | endpoint/src/endpoint_impl.rs:1777-1782 | state and pool as the machine's `Bind` |
| `PumpTask.Pump.constructor` | endpoint/src/endpoint_impl.rs:835-848 | the pump's variables at its start |
| `PumpTask.Pump.NextRedialDelay` | endpoint/src/endpoint_impl.rs:1226-1237 | takes the registration time and moves the attempt counter as the backoff specification |
| `PumpTask.Pump.TakeHome` | endpoint/src/endpoint_impl.rs:1194-1201 | retires and closes the home connection exactly while it is still the pooled one, and says so |
| `PumpTask.Pump.RetireHome` | endpoint/src/endpoint_impl.rs:978-983 | and arms the redial only for the call that retired it |
| `PumpTask.Pump.Turn` | endpoint/src/endpoint_impl.rs:851-857 | drain, wake on progress or after a tick |
| `PumpTask.Pump.NextRelaySend` | endpoint/src/endpoint_impl.rs:858-870 | one iteration of the relay flush: what goes to the wire, or a drop |
| `PumpTask.Pump.RelaySendResolved` | endpoint/src/endpoint_impl.rs:869-879 | a failed home send retires and closes the home connection if still pooled; any other outcome changes nothing |
| `PumpTask.Pump.NextUdpSend` | endpoint/src/endpoint_impl.rs:884-894 | one iteration of the UDP flush |
| `PumpTask.Pump.NextChannelSend` | endpoint/src/endpoint_impl.rs:895-913 | one iteration of the channel flush |
| `PumpTask.Pump.ArmReceives` | endpoint/src/endpoint_impl.rs:918-921 | every relay registered since the last turn gets exactly one receive |
| `PumpTask.Pump.ArmChannels` | endpoint/src/endpoint_impl.rs:922-925 | every channel registered since gets exactly one receive |
| `PumpTask.Pump.Arm` | endpoint/src/endpoint_impl.rs:915-930 | both, and the pending upgrades are taken |
| `PumpTask.Pump.LeaveIfDone` | endpoint/src/endpoint_impl.rs:932-944 | leaves exactly when closed and either every connection drained or failed, or the linger is over; wakes every waiter then |
| `PumpTask.Pump.SettleReceive` | endpoint/src/endpoint_impl.rs:947-994 | re-arms only the pool's current connection, retires and closes only a current one; stale outcomes are dropped |
| `PumpTask.Pump.ReceiveFailed` | endpoint/src/endpoint_impl.rs:977-994 | the home relay is retired into its redial, a foreign one out of the pool, and what was retired is closed |
| `PumpTask.Pump.HandleReceived` | endpoint/src/endpoint_impl.rs:965-971 | signals are filed, datagrams enter noq, whatever became of the connection |
| `PumpTask.Pump.UdpReceived` | endpoint/src/endpoint_impl.rs:996-999 | a UDP datagram enters under its remote address |
| `PumpTask.Pump.ChannelReceived` | endpoint/src/endpoint_impl.rs:1008-1033 | a live channel's receive is re-armed; its datagram enters under its peer's standin; a dead channel is retired |
| `PumpTask.Pump.Reoccupy` | endpoint/src/endpoint_impl.rs:1047-1052 | the redialed connection takes the home key, its receive is armed, the attempt counter restarts |
| `PumpTask.Pump.Redialed` | endpoint/src/endpoint_impl.rs:1034-1064 | a redial reoccupies the home key, or arms the next redial; a closed endpoint does neither and closes the new connection |
| `PumpTask.Pump.PollKicked` | endpoint/src/endpoint_impl.rs:1408-1420 | consumes the pending kick, or parks the pump's waker |
| `PumpTask.Pump.Tick` | endpoint/src/endpoint_impl.rs:1069-1108 | each connection found dead is retired and closed once, home into the redial, foreign out of the pool |
| `PumpTask.SweepRetires` | endpoint/src/endpoint_impl.rs:1082-1107 | the machine's sweep retires exactly the dead ones, in order, and leaves the rest of the pool |
| `PumpTask.DrainedConns` | endpoint/src/endpoint_impl.rs:515-586 | the code's drain and the machine's move the entries alike |
| `PumpTask.SweepIsOnDead` | endpoint/src/endpoint_impl.rs:1069-1108 | the code's sweep and the machine's move the pool alike |
| `PumpTask.TurnIsTheMachines` | endpoint/src/endpoint_impl.rs:850-857 | the turn: the code's step on its own variables is the machine's step seen through the view |
| `PumpTask.RelayTurnIsTheMachines` | endpoint/src/endpoint_impl.rs:858-883 | the relay flush, with what it sends: the code's step on its own variables is the machine's step seen through the view |
| `PumpTask.UdpTurnIsTheMachines` | endpoint/src/endpoint_impl.rs:884-894 | the UDP flush, with what it sends: the code's step on its own variables is the machine's step seen through the view |
| `PumpTask.ChannelTurnIsTheMachines` | endpoint/src/endpoint_impl.rs:895-913 | the channel flush, with what it sends: the code's step on its own variables is the machine's step seen through the view |
| `PumpTask.RelaySentIsTheMachines` | endpoint/src/endpoint_impl.rs:869-879 | the resolved relay send: the code's step on its own variables is the machine's step seen through the view |
| `PumpTask.ArmIsTheMachines` | endpoint/src/endpoint_impl.rs:915-944 | arming and the way out: the code's step on its own variables is the machine's step seen through the view |
| `PumpTask.RelayReceivedIsTheMachines` | endpoint/src/endpoint_impl.rs:947-994 | the relay receive arm: the code's step on its own variables is the machine's step seen through the view |
| `PumpTask.UdpReceivedIsTheMachines` | endpoint/src/endpoint_impl.rs:996-1007 | the UDP arm: the code's step on its own variables is the machine's step seen through the view |
| `PumpTask.ChannelReceivedIsTheMachines` | endpoint/src/endpoint_impl.rs:1008-1033 | the channel arm: the code's step on its own variables is the machine's step seen through the view |
| `PumpTask.RedialedIsTheMachines` | endpoint/src/endpoint_impl.rs:1034-1064 | the redial arm: the code's step on its own variables is the machine's step seen through the view |
| `PumpTask.KickedPollIsTheMachines` | endpoint/src/endpoint_impl.rs:1065-1068 | the kick arm and parking: the code's step on its own variables is the machine's step seen through the view |
| `PumpTask.TickIsTheMachines` | endpoint/src/endpoint_impl.rs:1069-1108 | the tick arm: the code's step on its own variables is the machine's step seen through the view |
| `EndpointTasks.EndpointRes.EnsureRelay` | endpoint/src/endpoint_impl.rs:1616-1627 | key, refusal, claim or wait, exactly as the pool specification |
| `EndpointTasks.EndpointRes.RelayDialed` | endpoint/src/endpoint_impl.rs:1636-1648 | the claim goes back either way, waiters wake, success registers under the next key and kicks |
| `EndpointTasks.EndpointRes.EnsureRelayPoll` | endpoint/src/endpoint_impl.rs:1650-1668 | one poll of the wait, in the code's order of checks |
| `EndpointTasks.EndpointRes.DialAddress` | endpoint/src/endpoint_impl.rs:1866-1878 | standin and route as the dial specification |
| `EndpointTasks.EndpointRes.ConnectDial` | endpoint/src/endpoint_impl.rs:1861-1895 | nothing on a closed endpoint; no entry when noq refuses; else entry, epoch, upgrade request and kick |
| `EndpointTasks.EndpointRes.AddDialed` | endpoint/src/endpoint_impl.rs:1883-1894 | the entry is stamped with the next epoch |
| `EndpointTasks.EndpointRes.ConnectPoll` | endpoint/src/endpoint_impl.rs:1906-1929 | success disarms the guard, failure drops it with nothing left to close and no kick |
| `EndpointTasks.EndpointRes.AcceptPoll` | endpoint/src/endpoint_impl.rs:1939-1954 | the first queued connection still in its slot, passing over the rest |
| `EndpointTasks.EndpointRes.Close` | endpoint/src/endpoint_impl.rs:1964-1975 | first call closes everything, kicks and wakes; later calls do nothing |
| `EndpointTasks.RelayClaim.Drop` | endpoint/src/endpoint_impl.rs:1592-1602 | an armed claim frees its URL and wakes the waiters; a disarmed one does nothing |
| `EndpointTasks.DialGuard.Drop` | endpoint/src/endpoint_impl.rs:1563-1580 | an armed guard closes its own live connection and kicks; otherwise nothing |
| `EndpointTasks.ConnectionRes.Close` | endpoint/src/endpoint_impl.rs:2228-2242 | acts only on the resource's own connection |
| `EndpointTasks.ConnectionRes.Drop` | endpoint/src/endpoint_impl.rs:1978-1984 | a drop is a close |
| `EndpointTasks.SessionGuard.Drop` | endpoint/src/webrtc.rs:106-117 | releases the peer's slot and inbox |
| `EndpointTasks.BeginUpgrade` | endpoint/src/webrtc.rs:254-261 | a guard is made exactly when the slot was free |
| `EndpointTasks.Publish` | endpoint/src/webrtc.rs:119-131 | queued through the session's relay; an error without a session |
| `EndpointTasks.PollSignal` | endpoint/src/webrtc.rs:143-157 | closed first, then the oldest signal, then the deadline |
| `EndpointTasks.OffererOpened` | endpoint/src/webrtc.rs:247-261 | the slot is released, then the channel registers; a closed endpoint closes the wire |
| `EndpointTasks.AnswererOpened` | endpoint/src/webrtc.rs:310-364 | the channel registers, then the slot is released; a closed endpoint closes the wire |
| `EndpointTasks.DialerIsTheMachines` | endpoint/src/endpoint_impl.rs:1592-1669 | each dialer step is the machine's seen through the view |
| `EndpointTasks.ConnectIsTheMachines` | endpoint/src/endpoint_impl.rs:1861-1895 | so for the dial |
| `EndpointTasks.AcceptIsTheMachines` | endpoint/src/endpoint_impl.rs:1939-1954 | so for accept |
| `EndpointTasks.DialPollIsTheMachines` | endpoint/src/endpoint_impl.rs:1906-1929 | so for the dial's wait, which leaves the shared state alone |
| `EndpointTasks.CloseConnIsTheMachines` | endpoint/src/endpoint_impl.rs:1563-1580 | so for cancellation, close and drop |
| `EndpointTasks.FailedDialsNeedNoClose` | endpoint/src/endpoint_impl.rs:1551-1580 | a dial's wait fails only when there is nothing left to close |
| `EndpointTasks.StreamIsTheMachines` | endpoint/src/endpoint_impl.rs:2260-2488 | so for stream and datagram calls: the code's state moves exactly by the kick |
| `EndpointTasks.CloseIsTheMachines` | endpoint/src/endpoint_impl.rs:1964-1975 | so for the endpoint's close |
| `EndpointTasks.SessionIsTheMachines` | endpoint/src/webrtc.rs:106-168 | so for publishing, reading and ending |
| `EndpointTasks.UpgradeIsTheMachines` | endpoint/src/webrtc.rs:256-261 | so for an upgrade's beginning |
| `EndpointTasks.ChannelIsTheMachines` | endpoint/src/webrtc.rs:247-363 | so for an opened channel, in each role's own order |
| `EndpointTasks.TasksLeaveThePump` | endpoint/src/endpoint_impl.rs:842-848 | no task touches the pump's own variables |
| `Simulation.Endpoint.constructor` | endpoint/src/endpoint_impl.rs:1777-1788 | the objects `bind` makes are at the start of a run of the machine |
| `Simulation.Endpoint.Turn` | endpoint/src/endpoint_impl.rs:850-857 | at any point of a run, the turn's code is that run's next step, and finds every entry and owner it looks up; the rows below say the same of their own steps |
| `Simulation.Endpoint.NextRelaySend` | endpoint/src/endpoint_impl.rs:858-870 | so the relay flush; and what it hands to a relay reaches its peer |
| `Simulation.Endpoint.NextUdpSend` | endpoint/src/endpoint_impl.rs:884-894 | so the UDP flush; and what it sends reaches its address |
| `Simulation.Endpoint.NextChannelSend` | endpoint/src/endpoint_impl.rs:895-913 | so the channel flush; and what it hands to a channel reaches its peer |
| `Simulation.Endpoint.RelaySendResolved` | endpoint/src/endpoint_impl.rs:869-879 | so a send's outcome; the connections closed are those retired |
| `Simulation.Endpoint.ArmTurn` | endpoint/src/endpoint_impl.rs:915-944 | so arming and the way out; the upgrades handed out are the sessions spawned |
| `Simulation.Endpoint.RelayReady` | endpoint/src/endpoint_impl.rs:947-995 | so the relay receive arm; the connections closed are those retired |
| `Simulation.Endpoint.UdpReady` | endpoint/src/endpoint_impl.rs:996-1007 | so the UDP arm |
| `Simulation.Endpoint.ChannelReady` | endpoint/src/endpoint_impl.rs:1008-1033 | so the channel arm |
| `Simulation.Endpoint.RedialReady` | endpoint/src/endpoint_impl.rs:1034-1064 | so the redial arm |
| `Simulation.Endpoint.PollKicked` | endpoint/src/endpoint_impl.rs:1065-1068 | so the kick arm; when the code parks, its queues and lists are empty |
| `Simulation.Endpoint.TickReady` | endpoint/src/endpoint_impl.rs:1069-1108 | so the tick arm; exactly the dead connections leave the pool, and they are closed |
| `Simulation.Endpoint.Tick` | endpoint/src/endpoint_impl.rs:1069-1108 | the whole tick: every pooled connection takes a probe step, and exactly those whose own probe says dead leave the pool and are closed |
| `Simulation.Endpoint.EnsureRelay` | endpoint/src/endpoint_impl.rs:1616-1636 | so `ensure_relay`'s start |
| `Simulation.Endpoint.RelayDialed` | endpoint/src/endpoint_impl.rs:1636-1648 | so the outcome of its dial |
| `Simulation.Endpoint.ClaimDropped` | endpoint/src/endpoint_impl.rs:1592-1602 | so the cancellation of that dial |
| `Simulation.Endpoint.Connect` | endpoint/src/endpoint_impl.rs:1861-1895 | so a dial's start |
| `Simulation.Endpoint.ConnectPoll` | endpoint/src/endpoint_impl.rs:1906-1929 | so a poll of its wait |
| `Simulation.Endpoint.DialCancelled` | endpoint/src/endpoint_impl.rs:1563-1580 | so its cancellation |
| `Simulation.Endpoint.Accept` | endpoint/src/endpoint_impl.rs:1939-1962 | so a poll of `accept` |
| `Simulation.Endpoint.ConnectionClosed` | endpoint/src/endpoint_impl.rs:2228-2242 | so a connection's close |
| `Simulation.Endpoint.ConnectionDropped` | endpoint/src/endpoint_impl.rs:1978-1984 | so its drop |
| `Simulation.Endpoint.Close` | endpoint/src/endpoint_impl.rs:1964-1975 | so the endpoint's close |
| `Simulation.Endpoint.StreamCalled` | endpoint/src/endpoint_impl.rs:2260-2488 | so a stream or datagram call, given the kick its own method reports |
| `Simulation.Endpoint.UpgradeBegun` | endpoint/src/webrtc.rs:254-261 | so an upgrade's start |
| `Simulation.Endpoint.Published` | endpoint/src/webrtc.rs:119-131 | so a session's publication |
| `Simulation.Endpoint.SignalPolled` | endpoint/src/webrtc.rs:143-157 | so its reading |
| `Simulation.Endpoint.SessionDropped` | endpoint/src/webrtc.rs:106-117 | so its end |
| `Simulation.Endpoint.OffererOpensChannel` | endpoint/src/webrtc.rs:247-261 | so an offerer's opened channel |
| `Simulation.Endpoint.AnswererOpensChannel` | endpoint/src/webrtc.rs:310-364 | so an answerer's |
| `Simulation.Endpoint.Waits` | endpoint/src/endpoint_impl.rs:1387-1403 | so a poll of any waiter |

## Left out

- RuntimeSafety.EverySendReachesItsPeer: assumes that the 32-bit host counter does not wrap, that no real socket address lies in 2001:db8:77::/48, and that a channel's far end is the peer it was signaled with; a datagram that is dropped is no violation.
- RelayPool.OutageIsPaced: speaks of a stretch of a run with no successful redial, since each success resets the counter; it bounds the waiting armed, not the time the dials themselves take.
- RelayClient.DetectionWindow: requires that the silence does not begin with a frame at the instant of an outstanding ping; `RelayClient.TiedWindow` covers that case and `RelayClient.EarlyDeathIffTied` shows the requirement exact.
- RecvStreams.TerminalRepeats: for streams read by `read` alone; `read_via_stream`, which does not consult the reading flag, is not modelled, and of `stop` only its kick.
- RuntimeSafety.TickTurnResumesAll: while the pump is alive; what happens to waiters that park after it ended is not modelled.
- The polling inside `drain`: noq's outputs are given to a drain as one sequence in the order its polls yield them, so the order in which a hash map visits connections is any order.
- The inside of noq, rustls, TLS identity extraction and Ed25519: verdicts, events and answers are inputs with the discipline stated above.
- SDP, ICE, data-channel negotiation and the JSON of signals: a session starts, reads, publishes, opens a channel, fails or is cancelled.
- Websocket, UDP and clock imports: their results are inputs of the steps. `handle_timeouts` only makes noq produce outputs, which is what `dirty` records.
- The pump's teardown after its loop, the linger's length, and awaits that never resolve.
- EndpointState.State.OnEvent: does not model alpn, `peer_close` and the queues of opened streams and datagrams, which no modelled step reads.
- RuntimeWakes.AnswersWake: leaves deadlines aside, since time passing is no step: a deadline is seen at the tick, by `RuntimeSafety.TickTurnResumesAll`.
- StreamCalls.UnkickedLoadsAreResets: assumes of noq that a read leaves credit to send only if it took something, and that an `open` refused again queues nothing new.
- Simulation.Endpoint.StreamCalled: the pairing of a stream object's fields with the call's arguments is the caller's; what is simulated is the kick, the one effect on the shared state.
- `open_stream`, `accept_stream`, datagrams: only whether they kick and give noq something to send; `path_changes`, `wait_closed`: polls of the same shape as those modelled.
- `encode_client_auth`, `decode_denial_reason`, `relay_url`, the relay handshake: library encodings and single-branch text handling.
- Option setters, `app_code`, error texts, the close code and reason.
- Other counters (`next_relay_key`, `next_channel_id`, epochs) are unbounded; wrapping them takes 2^32 or 2^64 registrations.
- Steps are atomic: the one place where a host may re-enter, blocking on a signature during the handshake, is assumed away.

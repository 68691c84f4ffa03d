# malon: path switching and the relayed tunnel

malon keeps two paths to every peer, one through a relay and one direct, and switches between
them while many goroutines run. This project models that switching and the layered tunnel that
carries packets over the relay, and proves what they keep over every run.

**Path switching** (`PeerEntry`, `PathSwitch`, `PathOwnership`, `PathRetry`, `PathDirect`,
`PathActive`, `PathRelay`, `PathCoverage`, `PathProgress`, `PathFindings`, `PeerPaths`). One registered peer is a transition system: an
unbounded set of goroutines, each with a program counter, whose atomic steps are the critical
sections of the manager and the calls on the mion peer object. Dials, handshakes, reads and
cancellation are arbitrary choices, so every theorem over action lists is a theorem over every
interleaving. `SetConn` is an atomic store and `ClearConnIf` an atomic compare-and-clear.

**Relayed tunnel** (`Varint`, `Capsule`, `Envelope`, `Relay`, `RelayProgress`, `RelayFindings`,
`Sessions`, `SessionDelivery`, `SessionOwner`, `NetConn`, `ReadProgress`, `FarProgress`,
`SharedStream`, `Tunnel`, `TunnelFindings`). Each layer has its own law, and `Tunnel.EndToEnd` composes them: capsules
with QUIC varints, cut into writes, wrapped in envelopes, forwarded by a relay among other
traffic, demultiplexed into bounded channels, read back through a leftover buffer and parsed
again.

Safety results say what never goes wrong; each machine also has results that say it gets on: what a
goroutine, a handler, a reader or a caller achieves from every state when it is let run
(`Tunnel.RelayCompletes` and `Tunnel.EndToEndCompletes` compose them for the tunnel).

**Around them**: the connect loop of one relay (`RelayLink`, `RelayBackoff`), the pool of proxies (`ProxyPool`),
the hole-punching loop (`ProbeLoop`). Code that updates objects in place is also given as classes
and loops (`Streams`, `InternalProxy`, `RelayServer`, `PeerPaths`, and the classes inside the modules
above), each method proved against the functions the theorems are about.

## What does not hold, and exactly when

- A proxy can end with an active conn that nobody reads: `fallbackToRelay` reads `relayConn`, its
  forwarder clears the conn and exits, and `SetConn` then restores it
  (`PathFindings.DeadConnActive`). `PathActive.GuardStep`: no other step does this, in either role.
  In client role it cannot happen (`PathActive.ActiveIsForwarded`).
- A client can end with no active conn, no direct path and nobody providing one. A relay conn
  breaks: its forwarder only clears the active conn, and the dead conn stays on record
  (`PathFindings.DeadConnRecorded`). Or the fallback finds `retryingConn` still set by a goroutine
  that has already decided to return (`PathFindings.PathlessClient`). `PathCoverage.CoverageStep`
  gives exactly the steps that do this: with nobody else bound to provide a path and no direct path
  recorded, a forwarder clears the active conn, or, while nothing is active, the last claim is
  refused or the last retry returns because it is cancelled or takes the conn on record for a live
  one.
- A client can have a direct path on record that nothing sends through: a retry past its check makes
  its relay conn active over it, and that conn breaks (`PathFindings.DirectPathUnused`).
  `PathCoverage.UsableStep` gives exactly the steps after which nothing is active and nobody is about
  to provide an active conn, whatever is on record.
- An inbound connection that replaces a direct path on record leaves two readers
  (`PathDirect.ExclusiveStep`, exactly then), and the older one's fallback later takes the flag away
  from the newer path, which stays active without being on record
  (`PathDirect.StaleFallback`, exactly then; `PathFindings.DirectPathForgotten`).
- Allocating a session id that is still mapped leaves an open channel nobody can reach
  (`Sessions.OrphanStep`, exactly then). Both ends count from 1, so the first sessions of
  two peers can collide (`Sessions.FirstIdsCollide`).
- Dispatch looks at the session id alone, never at who sent the envelope. So two peers that use one
  id towards one destination end up in one session (`TunnelFindings.TwoSourcesOneSession`), and a
  session opened here for one peer is fed by any other that uses its id
  (`Sessions.ForeignPayload`). Exactly when: step by step `Sessions.PurityStep`; for the reader of a
  dispatched stream `Tunnel.ReaderIsolation` (what one handler of the relay sent) and
  `Tunnel.SessionOwnership` (what the peer the session belongs to sent).
- Overlapping connections of one peer make a registered handler unreachable (`Relays.ExactStep`,
  exactly then); the older one can even take the entry of the newer with it
  (`RelayFindings.OverlapUnregisters`).
- Overlapping forwards to one live stream break it (`Relays.WholeStep`, exactly then), and the
  destination decodes something else than was written (`RelayFindings.OverlapGarbles`).
- Writers check no limit, readers do: `Capsules.PacketLimit`, `Envelopes.RoundTripLimit`. A varint
  from 2^62 on loses its high bits: `Varint.RoundTrip`.
- `IsConnected` reads the signal and the writer at different moments and can say yes before the
  epoch of that writer has signalled: `RelayLink.IsConnectedAnswer` says exactly when,
  `RelayLink.EarlyYes` shows a run.
- The relay backoff reaches 32 s although `maxBackoff` is 30 s: `RelayBackoff.BackoffValues`.
- The probe loop ends with a nil result when 30 s pass before its first test:
  `ProbeLoop.Probe`. A comment beside the loop speaks of a retry every second; the code waits
  200 ms, and the model follows the code.

## Model

| member | source | states |
|---|---|---|
| `Tunnel.EndToEnd` | internal/h2proxy/capsule.go:51-125 | for all message lists, cuttings into writes, interleavings at sender, relay and far proxy, and read sizes: the bytes read are a prefix of the bytes written, ReadPacket gives the packets and ReadControl, through its bounded channel, the control payloads of the first k messages in order, and of all of them once drained |
| `Tunnel.RelayCompletes` | internal/relay/relay.go:94-137 | every good run of the relay in which the sender's handler is at work has a good continuation after which everything it was sent is decoded and forwarded and the destination stream ends with a whole envelope |
| `Tunnel.EndToEndCompletes` | internal/h2proxy/envelope_conn.go:37-91 | then every calm run of the far proxy, however far it has got, has a calm continuation after which every byte written has been read, ReadPacket returns all packets, and ReadControl gets the control payloads: all of them if at most 16 or the channel is never full |
| `Tunnel.ReaderIsolation` | internal/h2proxy/proxy.go:193-245 | over every calm interleaving, once the stream is dispatched: a session has accepted exactly what one handler of the relay sent for it, if and only if no other handler has sent data under its id |
| `Tunnel.SessionOwnership` | internal/h2proxy/proxy.go:212-276 | over every history before the connection, every stream and every calm interleaving: the session belongs to the peer it was opened for, else to the first on the stream to use its id; it has accepted all data with that id; and only its peer's, if and only if every envelope on the stream with that id is from that peer |
| `TunnelFindings.TwoSourcesOneSession` | internal/h2proxy/proxy.go:212-245 | for any two DATA envelopes of one session id and destination with payloads, a run of the relay without overlap writes both, and a run of the far proxy on that stream puts both into the session of the first |
| `Tunnel.ReadsWritten` | internal/h2proxy/capsule.go:51-125 | reading any prefix of what WritePacket and WriteControl wrote gives exactly the messages that arrived whole, then end of stream |
| `Tunnel.RelayDelivers` | internal/relay/relay.go:94-137 | through the relay a session's payloads reach the destination stream as a prefix of those sent, and completely once the handler is idle |
| `PathActive.ActiveIsForwarded` | internal/manager/manager.go:836-850 | client role, every reachable state: the active conn has a forwarder pending or running that has not cleared it; each conn becomes active at most once and never again after its ClearConnIf |
| `PathActive.GuardStep` | internal/manager/manager.go:891-904 | both roles: a step leaves the active conn without a running or coming forwarder if and only if it is a fallback restoring a conn that its forwarder has cleared |
| `PathActive.GuardLossTraced` | internal/manager/manager.go:891-904 | over every run in either role, an active conn without forwarder goes back to such a restore |
| `PathDirect.NeverStranded` | internal/manager/manager.go:431-457 | both roles, every interleaving: while hasDirectPath is true the forwarder of the latest promotion is pending or running and has not committed its fallback |
| `PathDirect.PromotionExclusive` | internal/manager/manager.go:793-831 | without inbound CONNECT-IP the direct readers number 1 if hasDirectPath, else 0, and the "already fell back" branch is never taken |
| `PathProgress.PromotionStarts` | internal/manager/manager.go:797-810 | tryPromotePath goes on to dial if and only if no direct path is on record; otherwise, and when the dial fails, it ends without a trace |
| `PathProgress.CandidatePromotes` | internal/manager/manager.go:783-825 | from every client state without a direct path a validated candidate can lead to one conn dialled, promoted, active, forwarded and on record, with nothing else changed |
| `PathProgress.CandidateIdle` | internal/manager/manager.go:783-803 | with a direct path on record, or in proxy role, a candidate leads to no dial |
| `PathProgress.ProxyNeverDials` | internal/manager/manager.go:779-785 | over every run in proxy role no direct conn is dialled |
| `PathDirect.ExclusiveStep` | internal/manager/manager.go:441-452 | both roles: at most the latest promotion is read, and only with the flag set, before and after a step, if and only if the step is not an inbound connection replacing a path on record |
| `PathDirect.ExclusiveLossTraced` | internal/manager/manager.go:441-452 | over every run, further readers go back to such a replacement |
| `PathDirect.StaleFallback` | internal/manager/manager.go:872-883 | the flag is lost while the forwarder of the latest promotion is pending or running, if and only if the fallback is that of a replaced conn |
| `PathFindings.DirectPathForgotten` | internal/manager/manager.go:872-883 | a run after which a direct conn is active and read and not on record |
| `PathRetry.RetryCount` | internal/manager/manager.go:938-949 | the retry goroutines, from claim to deferred reset, number 1 if retryingConn, else 0; always 0 in proxy role |
| `PathProgress.FailuresLeaveNothing` | internal/manager/manager.go:952-1006 | any number of failed rounds of retryConnectPeer leave everything as it was, with the goroutine back at its check |
| `PathProgress.RetryConnects` | internal/manager/manager.go:938-993 | from every client state without a path, after any number of failed rounds, a successful one ends with one new conn on record, active and forwarded, the flag released and the goroutine gone |
| `PathProgress.RetryReturns` | internal/manager/manager.go:953-969 | cancelled, or with a path on record, it releases the flag and ends, and changes nothing else |
| `PathProgress.FailedHandshake` | internal/manager/manager.go:495-505 | an incoming session whose handshake fails leaves no trace |
| `PathRelay.RelayConnOwnership` | internal/manager/manager.go:385-394 | the conn in relayConn was never closed, each conn is installed at most once, each displaced conn is closed exactly once by its displacer (or about to be), except those setupRelayPeers drops; nothing is closed twice |
| `PathRelay.DialledFate` | internal/manager/manager.go:805-824 | every conn tryPromotePath dials is promoted, or closed exactly once, or still held by its dialler, and never two of these |
| `PathOwnership.RunKeepsOwn` | internal/manager/manager.go:352-402 | over all runs every connection is held by at most one goroutine, the one on record |
| `PathFindings.PathlessClient` | internal/manager/manager.go:918-927 | a run after which a client that had a connection has no path, no retry and no goroutine left |
| `PathFindings.DeadConnRecorded` | internal/manager/manager.go:1018-1024 | a run after which a client has a broken conn in relayConn, nothing active, no retry and no goroutine |
| `PathFindings.DirectPathUnused` | internal/manager/manager.go:385-396 | a run after which a client has a direct path on record, its forwarder reading, nothing active and nobody about to change that |
| `PathCoverage.CoverageStep` | internal/manager/manager.go:872-967 | a client with an active conn, an attended direct path or somebody providing a path is left with none of these if and only if, with nobody else providing one and no direct path recorded, a forwarder clears the active conn, or nothing is active and the last claim is refused or the last retry returns |
| `PathCoverage.CoverageLossTraced` | internal/manager/manager.go:872-967 | over every run, a client that was covered and no longer is has taken such a step in between |
| `PathCoverage.UsableStep` | internal/manager/manager.go:385-396 | the same if and only if for having an active conn or somebody about to provide one, not counting paths on record |
| `PathCoverage.UsableLossTraced` | internal/manager/manager.go:385-396 | over every run, a client that was usable and no longer is has taken such a step in between |
| `PathFindings.DeadConnActive` | internal/manager/manager.go:891-896 | a run after which a proxy's active conn has no forwarder and no goroutine is left to clear it |
| `PeerPaths.PeerEntry.PlaceRelay` | internal/manager/manager.go:385-397 | the tail of connectPeerWithCtx and handleIncoming, updating the record in place, is three steps of the transition system taken without interruption, and leaves the new conn installed and active |
| `PeerPaths.PeerEntry.SetupPeer` | internal/manager/manager.go:306-341 | setupRelayPeers for one peer is the steps of its goroutine; the conn on record is dropped unclosed; a retry is launched exactly when the machine launches one |
| `PeerPaths.PeerEntry.CommitPromotion` | internal/manager/manager.go:814-825 | the tail of tryPromotePath is two steps of the machine: promoted and active exactly when no direct path was recorded, else the dialled conn is closed |
| `PeerPaths.PeerEntry.TryPromotePath` | internal/manager/manager.go:793-831 | the whole of tryPromotePath in place is the steps of its goroutine: it dials if and only if no direct path was recorded, and what it dials becomes the active direct path |
| `PeerPaths.PeerEntry.RetryConnectPeer` | internal/manager/manager.go:938-1007 | the loop of retryConnectPeer in place is the steps of its goroutine, for every sequence of rounds: connected exactly at the first round that succeeds, returned exactly when cancelled or with a path on record, else still trying |
| `PeerPaths.PeerEntry.HandleDirectConnect` | internal/manager/manager.go:441-455 | handleDirectConnect is two steps of the machine and ends at the launch of the forwarder, with the inbound conn active |
| `PeerPaths.PeerEntry.FallbackToRelay` | internal/manager/manager.go:872-933 | the whole of fallbackToRelay, both roles, is the steps of the machine; a retry is launched exactly for a client whose flag hasDirectPath was set and retryingConn clear |
| `PeerPaths.PeerEntry.DirectForwarderExit` | internal/manager/manager.go:843-850 | the exit of forwardDirectConnToTUN through fallbackToRelay is a run of that goroutine in the machine |
| `PeerPaths.PeerEntry.RelayForwarderExit` | internal/manager/manager.go:1019-1024 | the exit of forwardConnToTUN is one step of the machine and ends the goroutine: nobody is told |
| `RelayLink.OneConnectAtATime` | internal/manager/manager.go:218-291 | across failures, successes and instant drops at most one Connect runs, each connectedCh is closed at most once, and a stored writer belongs to the running Connect |
| `RelayLink.ConnectedMeansReading` | internal/h2proxy/proxy.go:169-189 | at every moment: signal closed and writer stored if and only if the Connect of the current epoch is reading or has just stopped |
| `RelayLink.IsConnectedAnswer` | internal/h2proxy/proxy.go:93-115 | IsConnected with its three separate looks and anything in between: a yes means a Connect has its writer stored; it is wrong about the last look if and only if that Connect is of a later epoch and has not signalled; up at the first and last look gives yes |
| `RelayLink.EarlyYes` | internal/h2proxy/proxy.go:93-115 | a run with such a wrong yes |
| `RelayLink.CleanupClosesSessions` | internal/h2proxy/proxy.go:169-189 | every session mapped at cleanup is closed by it, none stays mapped and no other channel is touched |
| `RelayBackoff.BackoffValues` | internal/manager/manager.go:219-253 | a sleep of b seconds occurs in some run if and only if b is 1, 2, 4, 8, 16 or 32 |
| `RelayBackoff.SleepLengths` | internal/manager/manager.go:245-289 | over every run the backoff is 1 s doubled once per sleep since the start or the last connected round, up to 32 s, and 1 s while waiting for the end of a connection |
| `RelayBackoff.DropSleepsOneSecond` | internal/manager/manager.go:267-289 | the sleep after a connected round is 1 s |
| `RelayBackoff.ConnectedRound` | internal/manager/manager.go:223-289 | from the start of every round the relay can connect and drop, and the loop then comes through setting up and waiting to a sleep of 1 s |
| `RelayBackoff.InstantDrop` | internal/manager/manager.go:235-256 | when a Connect has signalled and already returned, either case of the select may be taken |
| `RelayBackoff.CancelStops` | internal/manager/manager.go:235-286 | cancelled where it waits or sleeps, the loop stops for good and starts no further Connect |
| `Sessions.TableSafe` | internal/h2proxy/proxy.go:212-331 | every interleaving of lookups, sends, removals and reads: every mapped session has an open channel of its own, no channel is closed twice, every channel refines a byte stream |
| `Sessions.ClosedIsFinal` | internal/h2proxy/proxy.go:302-331 | over every run from every state an entry keeps its peer, accepted and returned data only grow, and a closed channel stays closed and accepts nothing more: a send that loses the race with removal has no effect |
| `Sessions.CloseCloses` | internal/h2proxy/envelope_conn.go:93-98 | Close of a mapped session unmaps its id and closes its channel exactly once with queue and leftovers kept, and nothing else changes; of any other id nothing |
| `Sessions.RefusedCloses` | internal/h2proxy/proxy.go:232-239 | an incoming session that meets a full acceptCh is unmapped and closed by the next two steps, one that does not stays |
| `Sessions.OnlyTypeZero` | internal/h2proxy/proxy.go:193-208 | of the envelopes decoded exactly those of type 0 go to a session |
| `Sessions.LoopEnds` | internal/h2proxy/proxy.go:193-198 | the read loop ends if and only if nothing more decodes, and touches nothing |
| `Sessions.IdsCountUp` | internal/h2proxy/proxy.go:260-261 | over every run the next session opened here gets the number of those opened before plus one, modulo 2^32 |
| `FarProgress.ReaderCatchesUp` | internal/h2proxy/envelope_conn.go:37-75 | in every state enough reads into non-empty buffers return every accepted byte of a session, and then EOF if it is closed |
| `FarProgress.CloseThenEof` | internal/h2proxy/envelope_conn.go:37-98 | after Close the reader still gets every accepted byte and then EOF |
| `FarProgress.FarDrains` | internal/h2proxy/proxy.go:193-245 | every state a calm run reaches on a stream of whole envelopes has a calm continuation after which the stream is dispatched and the reader has everything |
| `Sessions.OrphanStep` | internal/h2proxy/proxy.go:260-276 | the open channels stay exactly the mapped ones if and only if the step does not register an id that is already mapped |
| `Sessions.MappedIsOpen` | internal/h2proxy/proxy.go:212-320 | on runs without such a collision mapped and open channels coincide |
| `Sessions.FirstIdsCollide` | internal/h2proxy/proxy.go:212-261 | for every DATA envelope with which a remote peer opens session 1 there is a run in which the first local session takes its id and its channel stays open, reachable from nowhere |
| `Sessions.PurityStep` | internal/h2proxy/proxy.go:213-244 | every session holds payloads of its own peer only, before and after a step, if and only if the step is not a send of a foreign envelope into a channel with room |
| `Sessions.ImpurityTraced` | internal/h2proxy/proxy.go:213-244 | over every run, a session that accepted a foreign payload goes back to such a send |
| `Sessions.ForeignPayload` | internal/h2proxy/proxy.go:213-276 | for every DATA envelope of session 1 and every peer, a run in which the session opened here for that peer accepts the payload, and is pure if and only if the peer is the source |
| `SessionDelivery.SessionReceives` | internal/h2proxy/proxy.go:193-245 | the reader of a session gets a prefix of the payloads its envelopes on the stream carry, and all of them once drained, over every calm interleaving |
| `NetConns.ReadRefinesStream` | internal/h2proxy/envelope_conn.go:37-75 | returned ++ readBuf ++ queued equals the accepted payloads, an in-order subsequence of those dispatched; EOF only after every accepted byte |
| `ReadProgress.ReadAdvances` | internal/h2proxy/envelope_conn.go:37-75 | one read returns exactly min(n, leftovers) bytes whatever the deadline, else unless expired min(n, first payload) bytes of the first queued payload, else EOF if closed; the rest is kept |
| `ReadProgress.ReadsDrain` | internal/h2proxy/envelope_conn.go:37-75 | as many non-empty reads as there are bytes and payloads waiting return every accepted byte, and one more reports EOF if closed |
| `ReadProgress.FirstSixtyFour` | internal/h2proxy/proxy.go:218-223 | of the payloads sent to a new session that nobody reads exactly the first 64 are accepted |
| `NetConns.EnvelopeNetConn.ReadInto` | internal/h2proxy/envelope_conn.go:37-75 | Read moves exactly the specified bytes into the front of the caller's buffer and leaves the rest of it alone |
| `NetConns.EnvelopeNetConn.SafeSend` | internal/h2proxy/proxy.go:324-331 | a payload is queued unless the channel is full or closed |
| `InternalProxies.InternalProxy.NewSession` | internal/h2proxy/proxy.go:260-276 | the object follows the table that gains a new entry of that peer: a fresh conn under the next id modulo 2^32, replacing what was mapped there |
| `InternalProxies.InternalProxy.DispatchData` | internal/h2proxy/proxy.go:212-245 | the object follows the table: a known id gets the payload sent; an unknown one becomes a session of the sender already holding it, removed and closed again if acceptCh is full |
| `InternalProxies.InternalProxy.RemoveSession` | internal/h2proxy/proxy.go:302-309 | the object follows the table: the mapping goes and its channel is closed; nothing for an unknown id |
| `InternalProxies.InternalProxy.CloseAllSessions` | internal/h2proxy/proxy.go:313-320 | the object follows the table: every mapped session is closed with its queue kept, no other is touched, and the map is empty |
| `InternalProxies.InternalProxy.WriteEnvelope` | internal/h2proxy/proxy.go:291-298 | an error while disconnected, else the encoding or the prefix that fitted is appended |
| `Relays.TableIsLive` | internal/relay/relay.go:87-120 | over all interleavings of connects and disconnects a stream in the table belongs to a handler of that peer that has not unregistered |
| `Relays.ExactStep` | internal/relay/relay.go:110-120 | the table stays exactly the registered handlers if and only if the step does not register a peer that is still registered |
| `Relays.TableIsExact` | internal/relay/relay.go:87-120 | when connections of a peer never overlap, the table holds exactly the live handlers |
| `Relays.Transparent` | internal/relay/relay.go:94-137 | with one forward per destination at a time every stream decodes to exactly the envelopes written to it, and what was read re-encodes to the bytes consumed |
| `Relays.ForwardingKeepsOrder` | internal/relay/relay.go:94-137 | over every run each destination gets, per source, an in-order selection of that source's envelopes |
| `RelayProgress.HandlerFinishes` | internal/relay/relay.go:94-137 | every handler at work has a continuation without overlapping forwards and with the table as it is after which it has decoded all it can and carries nothing |
| `Relays.WholeStep` | internal/relay/relay.go:122-131 | every stream stays whole envelopes up to one being written if and only if the step does not start a forward to a live stream that is still owed a payload |
| `RelayFindings.OverlapGarbles` | internal/relay/relay.go:122-131 | for any two envelopes of one destination with payloads, the first not beginning with the other version byte, a run writes both in full and the first envelope the destination decodes is not the first one written |
| `RelayFindings.OverlapUnregisters` | internal/relay/relay.go:110-120 | for every peer a run of two overlapping connections after which the live one is not in the table |
| `RelayServers.Relay.Register` | internal/relay/relay.go:110-114 | the stream replaces whatever the id was mapped to; streams of different peers stay different if and only if the new one serves no other peer |
| `RelayServers.Relay.HandleConnect` | internal/relay/relay.go:87-107 | a whole handler run alone: every connected peer, the caller included, is sent what is addressed to it, a displaced stream gets nothing, and the id is gone afterwards |
| `RelayServers.Relay.Forward` | internal/relay/relay.go:122-137 | an error for an unknown destination, else the encoding or the prefix that fitted is appended to the destination only |
| `RelayServers.Relay.ForwardAll` | internal/relay/relay.go:94-107 | the handler loop alone gives each stream, in order, the encodings of the envelopes addressed to its peer; errors do not stop it |
| `Envelopes.RoundTripLimit` | internal/envelope/envelope.go:48-92 | decoding an encoding followed by anything gives the envelope back if and only if its payload is shorter than 2^32 bytes |
| `Envelopes.HeaderBytes` | internal/envelope/envelope.go:48-55 | the 74 bytes of a header: version, type, source, destination, session id and payload length, the last two in four bytes, most significant first |
| `Envelopes.Reencode` | internal/envelope/envelope.go:68-92 | re-encoding a decoded envelope gives exactly the bytes consumed |
| `Envelopes.ProperPrefixFails` | internal/envelope/envelope.go:68-92 | no proper prefix of an encoding decodes |
| `Envelopes.ParseAllWire` | internal/envelope/envelope.go:48-92 | a stream of encodings decodes to those envelopes, then to what follows |
| `SharedStreams.LockSerialises` | internal/h2proxy/proxy.go:291-298 | any number of callers, each taking the lock, writing header and payload separately and releasing it, in every interleaving and wherever the stream breaks: at every moment a reader decodes exactly the envelopes whose two writes have succeeded; with the lock free the stream is what the calls in lock order put there, and all of them without a write error |
| `SharedStreams.AllCallsFinish` | internal/h2proxy/proxy.go:291-298 | every run can be continued until no caller is left; then every call has had exactly one turn, with its own envelope, and with room for all a reader decodes all of them in the order of turns |
| `Envelopes.Encode` | internal/envelope/envelope.go:48-66 | filling the header in place and writing twice appends the encoding, or the prefix that fitted with an error |
| `Envelopes.Decode` | internal/envelope/envelope.go:69-92 | reads one envelope and leaves exactly what follows it, or fails with the stream used up |
| `InternalProxies.SessionWrite` | internal/h2proxy/envelope_conn.go:78-91 | Write appends one envelope of version 1 and type 0 from this node to the peer with the session id and the bytes, or as much of it as the stream takes |
| `Capsules.Demultiplex` | internal/h2proxy/capsule.go:51-93 | for any capsule stream with any types and varint lengths, cut off anywhere, ReadPacket yields exactly the type-0 payloads that arrived whole, offers exactly the type-1 payloads, skips all others and then reports end of stream |
| `Capsules.ControlDelivery` | internal/h2proxy/capsule.go:64-77 | control payloads reach the channel in order, and all of them when it never is full |
| `Capsules.SixteenFit` | internal/h2proxy/relay_conn.go:60 | at most 16 control payloads offered to an empty channel all arrive, however slowly it is read |
| `Capsules.OnlySixteen` | internal/h2proxy/capsule.go:64-77 | with nobody reading exactly the first 16 arrive |
| `Capsules.KeepingUp` | internal/h2proxy/capsule.go:64-77 | with at least one taken before each offer all arrive, however many |
| `Capsules.NextBy` | internal/h2proxy/capsule.go:52-91 | for any encoding of type and length: over 65536 is refused for every type, over the buffer only for packets, and what is not all there is end of stream |
| `Capsules.CapsuleBytes` | internal/h2proxy/capsule.go:96-125 | the bytes of a written capsule: type 0 or 1, the length in one, two or four bytes, the payload |
| `Capsules.PacketLimit` | internal/h2proxy/capsule.go:96-109 | ReadPacket returns what WritePacket wrote if and only if it meets the 65536 limit and fits the buffer |
| `Capsules.WriteCapsule` | internal/h2proxy/capsule.go:96-125 | two writes append the framed payload, or the prefix that fitted with an error |
| `Capsules.CapsuleConn.ReadPacket` | internal/h2proxy/capsule.go:51-93 | the loop consumes, returns and offers what the specification of one call says, with the packet at the front of buf |
| `Varint.RoundTrip` | internal/h2proxy/capsule.go:136-167 | reading an appended varint before any suffix consumes exactly its bytes and yields v mod 2^62; v itself if and only if v is below 2^62 |
| `Varint.Shortest` | internal/h2proxy/capsule.go:154-167 | no accepted encoding of a value is shorter than the appended one |
| `Varint.PrefixFree` | internal/h2proxy/capsule.go:136-152 | no proper prefix of a complete varint parses |
| `Varint.ReadVarint` | internal/h2proxy/capsule.go:136-152 | the byte loop computes the value of section 16 of RFC 9000 and leaves what follows, or fails at end of input |
| `ProxyPool.Manager.constructor` | internal/manager/manager.go:100-128 | a new manager has a proxy for the interface relay, if any, and no others |
| `ProxyPool.Manager.GetOrCreateProxy` | internal/manager/manager.go:132-141 | one proxy per URL: the existing one, or a new one distinct from all others |
| `ProxyPool.Manager.RegisterPeer` | internal/manager/manager.go:149-163 | a second registration is refused; otherwise the peer's relay has a proxy and the others keep theirs |
| `ProxyPool.Manager.Run` | internal/manager/manager.go:184-211 | every proxy in the pool gets exactly one connect loop |
| `ProxyPool.Manager.ProxyOf` | internal/manager/manager.go:353-363 | an error exactly for an unknown peer or one without relay; any other lookup while running creates nothing and finds a proxy that has its connect loop |
| `ProbeLoop.Probe` | internal/manager/manager.go:724-771 | for every pattern of durations at most 150 attempts; cooldown after failures until the deadline, a validated result at the first success, cut short or cancelled only after failures within the deadline, nil result if and only if the deadline had passed before the first round |
| `ProbeLoop.ProbeInVain` | internal/manager/manager.go:724-763 | probes that fail at once are made exactly 150 times, and then the cooldown is recorded |

## Left out

- Inner TLS: taken as a reliable byte stream between capsules and writes.
- QUIC, HTTP/2, CONNECT-IP, STUN and certificate handling: a dial, probe or handshake is an
  arbitrary success or failure.
- The JSON control messages and candidate exchange, the base64 and hash forms of identities, the
  configuration file, the command-line programs, logging, TUN writes and the source address check on
  packets read from a tunnel.
- `dispatchControl` and `SendControl`: control envelopes are decoded and skipped by the session model.
- End of the control channel: nothing closes `ctrlCh`, so `ReadControl` never ends in the model.
- Read deadlines: an arbitrary error that consumes nothing, looked at only without leftovers.
- `ConnectPeer`: exported, and no goroutine of the manager calls it.
- Several peers: one peer's entry is modelled; no step of the manager on one entry reads another.
- A manager without mion object: its forwarders return at once.
- Fairness: that a goroutine is let run is a choice of the run; the results on getting on say that from
  every state the run in which it does reaches the goal.
- Sleeps of `retryConnectPeer`: the wait before the next round is the choice not to step; their
  lengths are not modelled.
- Write errors at a relay machine's streams: only the refusal by a handler that has returned; the
  classes model a stream that breaks at any byte.
- Update in place by concurrent goroutines: the concurrent machines work on values; the classes
  give each critical section, and each loop run alone, in place.
- Tunnel.EndToEnd: assumes that session ids in use are distinct, that the session and both
  connections stay up, that forwards to one stream do not overlap and that no payload of the session
  meets a full channel; the relay and the table break the law otherwise, as described above. All
  control payloads arrive when the control channel is never full, and an in-order selection always.
- ProbeLoop.Probe: the contents of `validated` and of the cooldown map are not modelled.
- RelayServers.Relay.HandleConnect: takes a stream that serves no other peer, as every CONNECT request
  brings a stream of its own; other handlers do not run meanwhile (`Relays` has the interleavings).

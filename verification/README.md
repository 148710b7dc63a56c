# lotun: a verified model

lotun exposes local services through a self-hosted tunnel server. A client holds one multiplexed control
connection; it registers http tunnels, routed by subdomain, and tcp tunnels, routed by public port. The
server binds a listener for every tcp tunnel, opens a data stream to the client for every public
connection or request, and removes all of a session's tunnels when its control connection drops.

This project models the parts of that system whose correctness depends on more than one function at a
time, and proves what they promise for every input, every run and every interleaving. `dafny verify
dfyconfig.toml` checks all of it.

## What is modelled

| file | what it models |
|---|---|
| `RoutingTables.dfy` | the registry's two routing tables as values: name and port allocation, registration, removal |
| `Registry.dfy` | the registry object, whose loops over its maps compute exactly those functions |
| `Lifecycle.dfy` | the server as an interleaved state machine and its inductive invariant |
| `LifecycleSafety.dfy` | what holds in every reachable state of that machine |
| `LifecycleRuns.dfy` | what holds over its runs: refused registrations, route stability, completion of cleanup, privacy |
| `ServerObject.dfy` | the server object: handlers that let other handlers run wherever they hold no lock, each proved to be a run of the machine |
| `Hosts.dfy` | host names, subdomains, allowlists, generated passwords, public addresses |
| `Router.dfy` | the HTTP routing decision, the proxy cache that is never evicted, the allowlist gate |
| `Protocol.dfy`, `Framing.dfy`, `Messages.dfy` | messages, length-prefixed frames over arbitrary chunks, typed messages and stream headers |
| `ControlChannel.dfy` | handshake, mutex and one-reply loop of the control stream with concurrent callers, and the server's side of it against any peer |
| `Splice.dfy` | two chained half-close-aware splices, end to end |
| `ClaimStore.dfy` | the claims file with every I/O failure and crash point |
| `Reconnect.dfy` | the retry loop's backoff and the validation of the configured tunnels |

**The lifecycle machine.** A step is one locked region or one operating-system call of one session's
handler: the registry step of a registration, the bind (which may fail for any reason), the insert into
the listener map, the rollback, the removal of a session, and for each freed port taking its listener
out of the map and, separately, closing it. The steps of any number of sessions interleave freely. The
invariant says, phase by phase, which tunnels are registered but unbound, bound but not inserted, freed
but still listening, or out of the map but not yet closed.

**Assumptions.** Tunnel identifiers and session identities never repeat. The operating system binds at
most one listener to a port. The port range starts at 1 or above; it may be empty. JSON decodes what it
encoded. Ending the write side of a multiplexed stream leaves its read side open.
`net.SplitHostPort` is modelled after its definition in Go's standard library.

**Results that differ from what a reader might expect.**

- A claimed name is not validated. Under an ordinary base domain the host handed out for a name leads
  back to it exactly unless the name itself reads as a host with a port (`NameResolvesIff`): a name with
  one colon is missed, one with two colons is found. With a port appended, any colon or bracket misses
  (`HostWithPortResolvesIff`).
- A port range that starts at 0 lets the allocator hand out port 0, for which the system binds some other
  port. `AllocatesZeroIff` says when; the server's machine is modelled for ranges that start at 1 or above.
- A frame stream that stops right after a header ends with the same error as one that stopped cleanly
  between frames (`TruncatedFrameIsError`).
- A payload of 2^32 bytes or more is not read back; `FrameRoundTripIff` is an equivalence.
- A claim whose save failed is reported as an error but is held in memory, and reaches the disk with the
  next save that works unless it is released first (`FailedClaimIsHeld`, `ClaimReachesTheFile`).
- `List` and `IsClaimed` of the store disagree if the file read at start maps a name to `false`
  (`ListAgreesIffNoFalse`).

## Model

| member | source | states |
|---|---|---|
| `RoutingTables.ScanFindsLeast` | internal/server/registry.go:152-157 | the port scan returns the least port of the range that is free, and nothing only if all are taken |
| `RoutingTables.AllocPortIsLeastFree` | internal/server/registry.go:135-158 | an allocated port is free; the requested port is used, else the local port if free, else the least free one; each error arises exactly in its own case |
| `RoutingTables.AllocatesZeroIff` | internal/server/registry.go:135-158 | port 0 is handed out exactly when the range starts there, a request names no port, 0 is free, and the local port is 0 or not free |
| `RoutingTables.ExhaustedIffFull` | internal/server/registry.go:152-157 | ports are exhausted exactly when none was requested and there are as many tcp tunnels as ports in the range |
| `RoutingTables.FreeNameIsFirstAcceptable` | internal/server/registry.go:117-127 | the assigned name is the first draw neither serving nor claimed; only after a thousand refusals is the next draw used unchecked |
| `RoutingTables.RegisteredName` | internal/server/registry.go:86-92 | every registered tunnel has the name it asked for, which is claimed, or else the first of a thousand draws that is neither claimed nor serving, and only if there is none the draw after them |
| `RoutingTables.AssignedNameCollidesIff` | internal/server/registry.go:86-98 | a registration that leaves the name to the server collides exactly after a thousand refusals and an unlucky last draw |
| `RoutingTables.RefusalReasons` | internal/server/registry.go:84-110 | each refusal arises exactly for its own reason, in the order in which the code checks them |
| `RoutingTables.RegisterKeepsWellFormed` | internal/server/registry.go:94-110 | every entry stays filed under its own subdomain or port, in range, and a private tcp entry keeps its allowlist |
| `RoutingTables.RegisterAddsAtMostOne` | internal/server/registry.go:70-113 | a failed registration changes neither table; a successful one adds exactly the returned tunnel and overwrites nothing; an unknown type adds nothing |
| `RoutingTables.StepInvisibleToOthers` | internal/server/registry.go:177-210 | what other sessions have registered is the same before and after any call made for one session |
| `RoutingTables.RemoveSessionUndoes` | internal/server/registry.go:194-210 | removing a session undoes any sequence of its calls, and restores both tables if it started with nothing |
| `RegistryObject.Registry.FreeName` | internal/server/registry.go:117-127 | the loop computes the first draw neither claimed nor serving, or the draw after a thousand refused |
| `RegistryObject.Registry.AllocatePort` | internal/server/registry.go:135-158 | the loop computes the specified port; a returned port is free, exhaustion means none is |
| `RegistryObject.Registry.Register` | internal/server/registry.go:70-113 | tables and outcome are exactly those specified, well-formedness is kept, and a name left to the server is the first acceptable draw |
| `RegistryObject.Registry.LookupHTTP` | internal/server/registry.go:161-166 | the entry of that subdomain, or none |
| `RegistryObject.Registry.Remove` | internal/server/registry.go:177-190 | exactly the entries with that identifier are deleted, and well-formedness is kept |
| `RegistryObject.Registry.RemoveSession` | internal/server/registry.go:194-210 | exactly the session's entries are deleted, each of its tcp ports is returned once, and well-formedness is kept |
| `RegistryObject.Registry.List` | internal/server/registry.go:213-224 | the tunnel of each key of either table, none missed and none repeated |
| `Lifecycle.RegisterKeepsInv` | internal/server/server.go:256-267 | the registry step of a registration keeps the invariant |
| `Lifecycle.BindKeepsInv` | internal/server/tcp.go:16-19 | a successful bind keeps the invariant |
| `Lifecycle.BindFailKeepsInv` | internal/server/tcp.go:17-19 | a failed bind keeps the invariant |
| `Lifecycle.InsertKeepsInv` | internal/server/tcp.go:20-22 | the insert into the listener map keeps the invariant |
| `Lifecycle.RollbackKeepsInv` | internal/server/server.go:278-291 | the rollback of a failed registration keeps the invariant |
| `Lifecycle.DisconnectKeepsInv` | internal/server/server.go:195-197 | removing a session from the registry, its listeners still open, keeps the invariant |
| `Lifecycle.TakeKeepsInv` | internal/server/server.go:334-339 | the listener of a freed port is in the map and is the session's own, and taking it out keeps the invariant |
| `Lifecycle.CloseKeepsInv` | internal/server/server.go:340-342 | closing a listener taken out of the map keeps the invariant |
| `Lifecycle.StepKeepsInv` | internal/server/server.go:174-203 | every step of every handler keeps the invariant |
| `LifecycleSafety.ReachableInv` | internal/server/server.go:174-203 | the invariant holds in every reachable state, for any number of sessions and any interleaving |
| `LifecycleSafety.ReachableTablesWellFormed` | internal/server/registry.go:94-110 | through every interleaving each entry stays under its own key, of its table's kind, in range, and with an allowlist if it is a private listener |
| `LifecycleSafety.RefusedForPortsIffFull` | internal/server/registry.go:100-109 | in every reachable state a registration is refused for lack of ports exactly when it passes the earlier checks, names no port, and as many tcp tunnels are registered as the range has ports |
| `LifecycleSafety.InsertOverwritesNothing` | internal/server/tcp.go:20-22 | an insert finds no entry for its port; the port is registered and bound for the inserted tunnel |
| `LifecycleSafety.CleanupClosesOnlyItsOwn` | internal/server/server.go:333-343 | a leaving session takes and closes only its own listeners, even if a port was registered again in between |
| `LifecycleSafety.LiveListenersAccountedFor` | internal/server/server.go:195-200 | every live listener is in the map or carried by exactly one handler, and conversely |
| `LifecycleSafety.LiveListenersAddUp` | internal/server/tcp.go:15-26 | live listeners = listeners in the map + handlers between bind and insert or between removal and close |
| `LifecycleSafety.QuiescentStateAgrees` | internal/server/server.go:40-43 | when no handler is between steps, tcp table, listener map and bound listeners are the same map |
| `LifecycleSafety.CleanExit` | internal/server/server.go:174-203 | once a handler has finished, no route, map entry or live listener belongs to its session |
| `LifecycleSafety.RollbackRemovesOne` | internal/server/server.go:279-280 | the tunnel a handler rolls back is its own and the only entry with its identifier |
| `LifecycleSafety.StepTouchesOnlyItsOwn` | internal/server/server.go:174-203 | no step of a session's handler changes any route, map entry, listener or phase of another session |
| `LifecycleRuns.GoneForever` | internal/server/registry.go:227-233 | a tunnel that is nowhere stays nowhere in every later state |
| `LifecycleRuns.RegisterStarts` | internal/server/server.go:256-269 | a registration that does not answer at once has added only its own tunnel |
| `LifecycleRuns.OthersRunKeepsSame` | internal/server/server.go:160-168 | any steps of other handlers leave a waiting session's routes, entries, listeners and phase as they were |
| `LifecycleRuns.RollbackErases` | internal/server/server.go:278-291 | after a rollback the session has exactly what it had before, and the tunnel is nowhere |
| `LifecycleRuns.RefusedRegistrationLeavesNoTrace` | internal/server/server.go:256-292 | a client that is refused finds its session exactly as before the request, whatever others did meanwhile, and the tunnel made for it never reappears |
| `LifecycleRuns.AcceptedIsRouted` | internal/server/server.go:269-287 | an acceptance is answered only when the http route, or the port's table entry, map entry and listener, are in place |
| `LifecycleRuns.HttpRouteStable` | internal/server/registry.go:94-99 | over any run an http route remains exactly as long as its own session has not disconnected |
| `LifecycleRuns.TcpRouteStable` | internal/server/registry.go:100-109 | over any run a tcp route, its map entry and its listener remain exactly as long as their session has not disconnected |
| `LifecycleRuns.CleanupAdvances` | internal/server/server.go:195-200 | a leaving handler always has exactly one possible step, which brings it nearer to the end; no other handler can hold it up |
| `LifecycleRuns.CleanupCompletes` | internal/server/server.go:195-200 | cleanup is over after exactly 2n+1 steps of the handler for n freed ports, in any interleaving |
| `LifecycleRuns.PrivateTunnelsAreGuarded` | internal/server/server.go:256-264 | in every reachable state a private http route has a nonempty password and a private listener a nonempty allowlist |
| `ServerObject.Server.Connect` | internal/server/server.go:174-193 | a new session starts with no route, map entry or live listener |
| `ServerObject.Server.Listen` | internal/server/tcp.go:16-19 | the bind works exactly if the system lets it and nobody has bound the port, and moves the handler on accordingly |
| `ServerObject.Server.StartTcpTunnel` | internal/server/tcp.go:15-26 | bind then insert, with other handlers in between: exactly if the bind works the whole route is in place, and otherwise nothing but a table entry remains to be rolled back |
| `ServerObject.TakenIffLeaverHolds` | internal/server/tcp.go:16-19 | the port of a tunnel about to bind is taken exactly while a leaving session still has it bound |
| `ServerObject.Server.Admit` | internal/server/server.go:264-267 | the registry step with the password chosen for the request |
| `ServerObject.Server.Establish` | internal/server/server.go:277-291 | a tcp tunnel gets its route exactly if the bind works and no leaving session has the port at that moment; any other tunnel is rolled back leaving the session as it was |
| `ServerObject.Server.HandleRegister` | internal/server/server.go:256-292 | with other handlers running in between: what the registry refuses is refused, an http tunnel it admits is accepted, a tcp tunnel it admits is accepted exactly if the bind works and no leaving session has the port when it binds; accepted, the route is in place and the reply gives address, port and generated password; refused, nothing of it remains |
| `ServerObject.RefusalInWords` | internal/server/registry.go:22-29 | the text of each refusal by the registry, in terms of the request |
| `ServerObject.Server.CloseTcp` | internal/server/server.go:333-343 | out of the map under the lock, closed without it, with other handlers in between |
| `ServerObject.Server.Cleanup` | internal/server/server.go:195-200 | after a connection drops nothing of its session is left, whatever others do meanwhile |
| `ServerObject.Server.Dispatch` | internal/server/server.go:234-308 | a claim is answered OK exactly if the name was free and all of the save worked, the claim of a held name is an error that touches nothing, a release is answered OK exactly if all of the save worked; a listing has one entry per table entry; a registration ends as `HandleRegister` says; only registrations change tunnels |
| `ServerObject.Server.HandleList` | internal/server/server.go:311-330 | one entry per active tunnel, with its own fields and the public address its registration answered |
| `Hosts.SplitHostPortIff` | internal/server/server.go:363-365 | the parser splits exactly host:port without colons and brackets and [host]:port, and the host part is that host |
| `Hosts.HostPartIff` | internal/server/server.go:363-365 | a text is its own host part exactly when it does not split; a host with a port appended gives the host back exactly when neither has a colon or a bracket |
| `Hosts.ResolvesOnlyItsOwnHost` | internal/server/server.go:362-375 | a request resolves to a subdomain exactly when its host part is that subdomain's host |
| `Hosts.HostResolvesIff` | internal/server/server.go:362-375 | the host handed out for a subdomain resolves to it exactly when the subdomain is not empty and the host cannot be read as host and port |
| `Hosts.HostWithPortResolvesIff` | internal/server/server.go:359-375 | with a port appended it does so exactly when there is no colon and no bracket in the host or the port |
| `Hosts.NameResolvesIff` | internal/server/server.go:362-375 | under a base without colons and brackets it resolves exactly unless the name is empty or itself reads as host and port |
| `Hosts.ColonNameMissesItsHost` | internal/server/server.go:295-300 | a claimable name with one colon is not reached through the host handed out for it |
| `Hosts.CheckIp` | internal/server/server.go:391-405 | the loop decides membership of the address's host part, or that the list is empty |
| `Hosts.GeneratePassword` | internal/server/server.go:411-422 | sixteen characters of the alphabet, each chosen by its own random byte |
| `Hosts.DecimalRoundTrip` | internal/server/server.go:284 | the port printed in a public address is the port, in decimal digits without leading zeros |
| `Router.HttpProxy.ProxyForTunnel` | internal/server/http.go:58-77 | the cached proxy of that identifier, which stays cached, or a new one |
| `Router.HttpProxy.ServeHttp` | internal/server/http.go:38-55 | the routing decision as looked up and, whatever runs between lookup and cache, a dial of the session, identifier and local port of the very tunnel found |
| `Router.RouteIff` | internal/server/http.go:38-55 | not found exactly when the host part is no tunnel's host; otherwise let through if the tunnel is public or the request carries user lotun and its password, unauthorized if not |
| `Router.OpenDataStream` | internal/server/http.go:82-95 | the stream begins with one frame holding the tunnel's identifier and local port |
| `Router.EventKeepsRouterInv` | internal/server/http.go:44-54 | every cached proxy stays that of the tunnel issued under its identifier, whatever the server does |
| `Router.CacheNeverMisroutes` | internal/server/http.go:58-95 | over whole runs, a forwarded request dials the session and local port of the very tunnel its lookup found |
| `Router.AcceptedHostReachesItsTunnel` | internal/server/http.go:38-55 | from acceptance until its session disconnects, requests reach the tunnel exactly through hosts whose host part is the host it was given, with the exact condition for that host with and without a port; those that do are let through if it is public or they carry its password, and refused otherwise |
| `Router.RequestDialsTheRegistration` | internal/server/http.go:38-95 | from an accepted registration over any interleaving to the forwarding of a request for its host: the dial is to that client's session, with that registration's identifier and the local port it asked for |
| `Router.DisconnectedTunnelIsNeverRouted` | internal/server/http.go:44-48 | after its session has disconnected no request is ever forwarded to a tunnel again |
| `Router.ListenerAdmits` | internal/server/tcp.go:31-42 | in every reachable state a public listener admits everybody and a private one exactly the addresses on its list |
| `Router.PrivateRouteNeedsItsPassword` | internal/server/http.go:49-53 | a private http route is reached only with its nonempty password |
| `Framing.BigEndian32RoundTrip` | internal/protocol/protocol.go:137-138 | the length prefix decodes to the length |
| `Framing.PrefixIsBigEndian` | internal/protocol/protocol.go:137-152 | every four bytes are the prefix of exactly one length below 2^32, the most significant byte first |
| `Framing.FrameLayout` | internal/protocol/protocol.go:136-144 | a frame is the length modulo 2^32 in four bytes and then the payload |
| `Framing.FrameRoundTripIff` | internal/protocol/protocol.go:136-160 | a frame is read back, whatever follows it, exactly when its length fits in 32 bits |
| `Framing.TruncatedFrameIsError` | internal/protocol/protocol.go:149-160 | every proper prefix of a frame is an error, and which one |
| `Framing.PrefixYieldsWholeFrames` | internal/protocol/protocol.go:149-160 | of any prefix of a stream of frames the reader gets exactly the whole frames, in order, then a clean end of input at a boundary or after a header and a premature one anywhere else |
| `Framing.FramesRoundTrip` | internal/protocol/protocol.go:136-160 | any list of frames followed by anything parses back in order, leaving exactly what followed |
| `Framing.Reader.ReadFull` | internal/protocol/protocol.go:151-158 | for any chunks, exactly the bytes wanted, or the error for none or for too few |
| `Framing.Reader.ReadFrame` | internal/protocol/protocol.go:149-160 | for any chunks, what `ParseFrame` finds in the bytes still unread |
| `Framing.ReadUntilError` | internal/server/server.go:228-233 | reading frame after frame yields what `ParseAll` finds |
| `Framing.ReadFrames` | internal/protocol/protocol.go:149-160 | for any chunks, n frames or the first error, just as `ParseN` finds them in the bytes still unread |
| `Framing.ReceiveFrames` | internal/protocol/protocol.go:136-160 | for any chunks, the frames written are the frames read, and exactly what followed is left unread |
| `Framing.Writer.WriteFrame` | internal/protocol/protocol.go:136-144 | the frame, or the part of it that was taken before a write failed |
| `Messages.EnvelopeUnwraps` | internal/protocol/protocol.go:184-218 | the payload goes to the decoder of its kind; an unknown kind is its own error whatever the payload |
| `Messages.RegisterWire` | internal/protocol/protocol.go:40-48 | which fields of a registration are on the wire: three always, the four optional ones exactly when they are not zero |
| `Messages.NullFieldsCountAsMissing` | internal/protocol/protocol.go:215-217 | in every kind of message a null field decodes as one that is missing |
| `Messages.RegisterDecodesIff` | internal/protocol/protocol.go:215-217 | a registration decodes exactly when each field it has is null or of its JSON type |
| `Messages.RegisterRoundTrip` | internal/protocol/protocol.go:40-48 | a registration with any of its optional fields left out decodes to the same registration |
| `Messages.EnvelopeRoundTrip` | internal/protocol/protocol.go:164-248 | each message of the ten kinds comes back as the same message |
| `Messages.ReadMessage` | internal/protocol/protocol.go:179-219 | one frame is read and decoded; whatever is wrong inside it, exactly that frame is consumed |
| `Messages.WriteMessage` | internal/protocol/protocol.go:164-174 | the message's frame is written, or the part of it that was taken |
| `Messages.MessagesRoundTrip` | internal/protocol/protocol.go:164-219 | any list of messages parses back as the same list, leaving exactly what followed |
| `Messages.ReadMessages` | internal/protocol/protocol.go:179-219 | for any chunks, n messages or the first error of any kind, just as `ParseWith` finds them in the bytes still unread |
| `Messages.ReceiveMessages` | internal/protocol/protocol.go:164-219 | for any chunks, the messages written are the messages read, and exactly what followed is left unread |
| `Messages.ReadStreamHeader` | internal/protocol/protocol.go:267-275 | one frame is read and decoded as a header |
| `Messages.ReceiveDataStream` | internal/client/client.go:221-235 | the client recovers the server's header, and the next byte is the first raw byte, for any chunks |
| `ControlChannel.NextKeepsInv` | internal/client/client.go:121-128 | every send, receive, lock, break and injected frame keeps the channel's invariant |
| `ControlChannel.AtMostOneOutstanding` | internal/client/client.go:121-128 | at most one caller is inside the critical section, and at most one message is on the stream |
| `ControlChannel.RepliesMatchRequests` | internal/client/client.go:121-128 | the k-th reply received answers the k-th request processed, which is the receiving caller's own |
| `ControlChannel.ResultsAreServed` | internal/client/client.go:121-128 | what a caller got back is a reply the server gave to that very request |
| `ControlChannel.NothingBeforeTheToken` | internal/server/server.go:208-223 | whatever any peer writes, nothing is processed unless the first message is the server's token; a wrong first message gets exactly one Error and nothing after it is read |
| `ControlChannel.EveryMessageGetsOneReply` | internal/server/server.go:228-251 | after the token every message any peer writes gets exactly one reply, in order and of a fitting kind, until a frame that cannot be decoded, which is the last one read |
| `ControlChannel.TokenFirst` | internal/server/server.go:208-223 | a client that keeps to the protocol is connected only with the right token, and with it is never turned away |
| `ControlChannel.HandshakeCompletes` | internal/client/client.go:78-117 | on a whole stream the handshake is over after three steps, connected exactly if the client has the server's token |
| `ControlChannel.ServerNeverStuck` | internal/server/server.go:228-251 | whatever a peer has written, the server can take the next frame as long as the stream is whole and it has not hung up |
| `ControlChannel.UnexpectedRepliesNeverArrive` | internal/client/client.go:131-194 | against this server the branches for unexpected replies are dead, in calls and handshake |
| `ControlChannel.CallersNeverStuck` | internal/client/client.go:121-128 | while a caller waits, on a whole stream or a broken one, some step other than a new call is possible |
| `ControlChannel.ProgressCounts` | internal/client/client.go:121-128 | each step of an exchange brings all waiting callers one step nearer to their replies |
| `ControlChannel.EveryCallerIsAnswered` | internal/client/client.go:121-128 | on a whole stream every waiting caller has come back with a reply after a number of steps fixed in advance, in any interleaving |
| `ControlChannel.EveryCallerReturns` | internal/client/client.go:121-128 | once the stream has broken every caller has returned after a number of steps fixed in advance, in any interleaving |
| `Splice.StepKeepsInv` | internal/netutil/splice.go:28-45 | every read, write, half-close, failure and close keeps the account of bytes in flight |
| `Splice.DeliveredIsPrefixOfSent` | internal/netutil/splice.go:28-45 | over every run, with any failures, the bytes delivered each way are a prefix of the bytes sent |
| `Splice.StoppedDeliversNoMore` | internal/netutil/splice.go:28-45 | once a copier has stopped, in any run only what was already past it or within its half can still be delivered |
| `Splice.FailureIsFinal` | internal/netutil/splice.go:37-45 | what a failed copier had not written, and all that was behind it or is sent later, never arrives in any run |
| `Splice.CloseDiscardsNothing` | internal/server/tcp.go:48-58 | without failures the final close finds nothing unread: no end of stream cuts the other direction short |
| `Splice.EverythingIsDelivered` | internal/netutil/splice.go:18-27 | without failures, once both peers have ended and no step but a failure is left, all bytes and both ends of stream have arrived and both splices are closed |
| `Splice.StepsDecreaseWeight` | internal/netutil/splice.go:28-34 | every step but a peer's own sending brings both splices nearer to their end |
| `Splice.SettlesInBoundedSteps` | internal/netutil/splice.go:28-34 | once the peers are quiet the number of remaining steps is bounded by the bytes and copiers left |
| `Splice.Copy` | internal/netutil/splice.go:38 | all that the source yields in order, or as much as the destination takes |
| `Splice.CopyThenHalfClose` | internal/netutil/splice.go:37-45 | the destination's stream is ended in either case, after all it took of the source |
| `ClaimStore.FileStore.Save` | internal/store/store.go:93-113 | the file holds its old content or the whole new one at every crash point; which result and which leftover each failure gives |
| `ClaimStore.FileStore.OpenStore` | internal/store/store.go:37-51 | a missing file is an empty store, one that cannot be read or decoded is an error |
| `ClaimStore.SaveOutcomeIff` | internal/store/store.go:93-113 | a save is reported as done exactly when all four calls worked, and then the file has been replaced |
| `ClaimStore.FileStore.ClaimName` | internal/store/store.go:54-62 | a held name is refused and nothing is touched; otherwise it is taken in memory and the answer is what became of the save, for every outcome |
| `ClaimStore.FileStore.ReleaseName` | internal/store/store.go:65-70 | the name is taken out of memory, held or not, and the answer is what became of the save, for every outcome |
| `ClaimStore.CrashConsistency` | internal/store/store.go:54-113 | whatever fails and wherever the process dies, the file decodes to the memory after some prefix of the operations, no older than the last acknowledged save |
| `ClaimStore.AcknowledgedMeansDurable` | internal/store/store.go:37-70 | after an acknowledged save, opening rebuilds exactly the memory, names from earlier failed saves included |
| `ClaimStore.FailedClaimIsHeld` | internal/store/store.go:57-61 | a claim whose save failed is held in memory but not on disk, and is rejected when tried again |
| `ClaimStore.ClaimReachesTheFile` | internal/store/store.go:54-70 | a claimed name, its own save failed or not, is in the file once any later operation is acknowledged, unless released |
| `ClaimStore.AcknowledgedClaimSurvives` | internal/store/store.go:54-113 | after an acknowledged claim every crash leaves a file that opens with the name held, until it is released |
| `ClaimStore.MemoryIsASet` | internal/store/store.go:54-77 | the names held are those of a set under insertion and removal |
| `ClaimStore.FreshStoreIsASet` | internal/store/store.go:37-70 | a store opened without a file holds exactly what was claimed and not released since |
| `ClaimStore.ListAgreesIffNoFalse` | internal/store/store.go:73-89 | listing and membership agree exactly when no name maps to false |
| `ClaimStore.FalseEntriesOnlyFromTheFile` | internal/store/store.go:37-70 | no operation creates such an entry |
| `Reconnect.ServeWithRetry` | cmd/lotun/commands.go:351-375 | the loop's waits are those specified, the time taken is sessions, waits and lateness, and n attempts take at least (45n - 120)/4 seconds |
| `Reconnect.ElapsedAddsUp` | cmd/lotun/commands.go:351-375 | the least time is the sum of all sessions and all waits |
| `Reconnect.WaitIsCappedPower` | cmd/lotun/commands.go:359-373 | each wait is a power of two seconds in the number of short sessions in a row, capped at thirty |
| `Reconnect.ReconnectRate` | cmd/lotun/commands.go:341-375 | for any mix of short and long sessions, 4E >= 45n - 120 |
| `Reconnect.RateIsTight` | cmd/lotun/commands.go:359-373 | neither the rate nor the constant of that bound can be improved |
| `Reconnect.FlawIff` | cmd/lotun/commands.go:106-126 | each flaw of a configured tunnel is reported exactly for its own reason, in order, with the type in either case |
| `Reconnect.TunnelRequests` | cmd/lotun/commands.go:106-135 | one request per entry in order, asking field by field for what the entry says, if all are sound; otherwise the first flaw and its index |
| `Reconnect.ValidatedRequestsPassTheServersChecks` | cmd/lotun/commands.go:119-123 | what the client's validation lets through the server never turns down for a missing allowlist or an unknown type |

## Left out

- Shutdown: `closeAllTCP` and the draining in `Run` are not synchronised with handlers still running; the lifecycle invariant is about the time before cancellation.
- yamux, TLS, `net/http` and `httputil.ReverseProxy`: a session is an identity, a data stream two byte channels with end-of-stream marks; whether a dial succeeds is not modelled.
- JSON text: values are trees and a codec is any lawful pair of functions; key case folding, duplicate keys, fractions, numbers beyond 64 bits and invalid UTF-8 are not covered.
- Randomness: identifiers, names and passwords are arbitrary inputs; only that identifiers do not repeat is assumed.
- Constant-time comparison is equality; timing is outside the model.
- Loss of written data in a power cut: the store does not sync its files, and a rename is taken to be atomic and durable.
- Configuration loading, command wiring, printing and signal handling.
- `FileStore.List` ordering: only which names are listed is stated.
- `LookupTCP`: nothing on the server's paths calls it.
- Lifecycle.Enabled: a bind may fail at any time and a disconnect is noticed only between two requests, as in the code; that a freshly freed port may still be refused by the operating system is covered by the former.
- ServerObject.Server.Interference: its body does nothing; what counts is its contract, which lets any legal steps of other handlers happen.
- ServerObject.Server.Dispatch: what other handlers do to the claims store meanwhile is not part of it; each claim or release is one step under the store's own lock, and the answer a registration got from the store is an input.
- ControlChannel.Next: a broken stream is broken for both directions at once, so a request the server still reads from it is not processed; a reply that the client cannot decode is not modelled.
- Router.HttpProxy.Interference: its body does nothing; what counts is its contract, which lets tunnels come and go and proxies be added.
- A claims file holding JSON `null` opens as a nil map, and the first claim then panics (internal/store/store.go:42, 60); files hold a map or do not decode here.
- A port range with negative bounds.

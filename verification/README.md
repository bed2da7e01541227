# Arange-tun: verified models of the stateful core

Arange-tun is a set of reverse tunnels with a management panel.  This project models the parts
that keep state over unbounded runs and proves properties of every run, input or history.

| file | what it models |
|---|---|
| `Slot.dfy` | the mutex-guarded slot for the one live client, shared by the rathole and frp servers |
| `Tunnel.dfy`, `TunnelSafety.dfy`, `TunnelAccounting.dfy`, `TunnelService.dfy` | the rathole server: control channels, data channels and visitors as a step system |
| `UdpFrame.dfy`, `UdpMux.dfy` | the UDP framing of a rathole data channel and both ends of it, with concurrent reply pumps |
| `FrpFlows.dfy` | the frp UDP flow table with its accept loop, readers and reaper |
| `SocksParties.dfy`, `SocksTalk.dfy`, `SocksRelay.dfy` | the SOCKS5 client and server as two communicating parties, and each against any peer; the UDP ASSOCIATE relay |
| `Alerts.dfy` | threshold alerts with hysteresis and cooldown; tunnel up/down transitions |
| `Watchdog.dfy` | the watchdog that restarts dropped tunnels |
| `History.dfy` | the per-tunnel history with recent samples and hourly buckets |
| `PortUsage.dfy`, `Totals.dfy` | per-port usage and process-wide traffic totals, with 64-bit wrap-around |
| `IpRange.dfy` | IPv4 range expansion with 32-bit arithmetic |
| `Basics.dfy` | shared vocabulary |

Check everything with `dafny verify dfyconfig.toml`.

## How concurrency is modelled

A goroutine's critical sections, select arms and partial writes are steps of a state machine
(`Enabled`, `Next`).  A run is any sequence of enabled steps (`Runs`), so a lemma about the state
after a run (`After`) is about every interleaving.  Timeouts and failures are steps that may happen
at any moment.  The frp flow table stamps flows with the wall clock (`UnixNano`); its `Tick` step assumes
that this clock never steps back.  Fields that no step reads are history: they exist to state properties.

Clocks, readings, dials, resolutions and credential checks are inputs.  SHA-256 is an arbitrary
function of the nonce; where distinct keys matter, distinct nonces and the absence of collisions
among the nonces drawn are stated hypotheses.

## Where the code falls short of the obvious property

Each of these is proved as an exact condition, with a run that shows the failure where one is needed.

- The rathole handler makes its two pre-warm sends before anything drains the request queue.
  Visitors can fill the queue first, and then that client is never served
  (`TunnelAccounting.ServesIffRoom`, `TunnelAccounting.PrewarmCanBlockForever`).
- An frp flow's reader removes by source address.  After a write error it can close the flow that
  the same source has opened since (`FrpFlows.EvictsAnother`, `FrpFlows.StaleReaderEvicts`).
- `saveUsageData` drains the counters and replaces the total before it writes, so a failed write loses
  counts, and the ticker starts saves in goroutines that may overlap (`PortUsage.FailedWriteLoses`,
  `PortUsage.FailedWriteTotal`, `PortUsage.OverlappingSavesLose`, and the runs `PortUsage.FailedSaveRun` and
  `PortUsage.OverlapRun`).  A write that fails part way ends all later saves (`PortUsage.RecoversIff`,
  `PortUsage.DamagedRun`), and a page view can truncate a file saved since it looked (`PortUsage.ViewLoses`,
  `PortUsage.ViewRun`).
- A configuration reload builds a second collector over live counters, without waiting for the first
  one's last write; it counts what the process has already written twice (`Totals.ReloadHarmlessIff`,
  `Totals.ReloadRun`).  A process that cannot read the file starts the total again from zero
  (`Totals.UnreadableHarmlessIff`, `Totals.UnreadableRun`).
- An IPv4 block written as IPv6 expands to nothing without an error (`IpRange.MappedExpandsToNothing`).
- SOCKS5 lengths above 255 and ports outside 0 to 65535, negative ones included, wrap in `Negotiate`, which
  can then report success without the tunnel asked for (`SocksParties.RightTargetIff`,
  `SocksParties.WrongPortDialled`).
- `touch` reads the clock and then stores it without a lock, so an older stamp can overwrite a newer one and
  get a flow reaped early (`FrpFlows.ReapedEarlyIff`, `FrpFlows.LateStampReaps`).

## Model

| member | source | states |
|---|---|---|
| Slot.SlotAlwaysSound | internal/rathole/rathole.go:385-410 | after any interleaving the slot holds the newest client, or is empty once that client's handler has left it; every other client is closed or between leaving the slot and its own close |
| Slot.OnlyOwnerClears | internal/rathole/rathole.go:403-408 | only a client's own handler empties the slot; a replacement is always newer and closes the client it replaces |
| Slot.FrpOthersAlwaysClosed | internal/frp/frp.go:279-300 | where the handler waits for its session to close first, every session outside the slot is closed, with no exception |
| Slot.FrpRetiresDeadSession | internal/frp/frp.go:290-299 | a session in the slot that dies can be retired by its own handler, which leaves the slot empty |
| Slot.Server.Install | internal/rathole/rathole.go:385-390 | on objects: the previous client is closed and replaced, exactly the machine's Install step |
| Slot.Server.Leave | internal/rathole/rathole.go:403-408 | on objects: comparing references, the slot is cleared only if it still holds this client, exactly the machine's Leave step |
| TunnelSafety.KeysAlwaysAgree | internal/rathole/rathole.go:346-455 | in every reachable state each channel offered to, queued on or taken from a client presented that client's own session key, and queues stay within capacity |
| TunnelSafety.NoCrossDelivery | internal/rathole/rathole.go:439-478 | with distinct keys a channel opened for one client never reaches a visitor waiting on another, displaced or not |
| TunnelSafety.AlwaysOnePlaceEach | internal/rathole/rathole.go:437-521 | every data channel is in exactly one place: being routed, at one position of one pool, with one visitor, or closed |
| TunnelSafety.ServesOneVisitor | internal/rathole/rathole.go:459-521 | a channel once taken is never held by another visitor at any later time |
| TunnelSafety.TunnelSlotSound | internal/rathole/rathole.go:346-411 | every run of the whole server refines a run of the slot, so the slot's guarantees hold |
| TunnelAccounting.AlwaysBalanced | internal/rathole/rathole.go:396-478 | for every client at all times: supply of channels minus waiting visitors equals pre-warm sends made, minus drops and losses, plus visitors gone and uninvited channels |
| TunnelAccounting.ChannelsAccountedFor | internal/rathole/rathole.go:396-478 | with honest clients and distinct keys, after pre-warm, that difference is 2 - dropped - failed + gave up |
| TunnelAccounting.EveryReachableState | internal/rathole/rathole.go:318-478 | keys, places, slot and books hold together in every state reachable from the start |
| TunnelAccounting.ServesIffRoom | internal/rathole/rathole.go:396-401 | a handler still pre-warming has some continuation in which it serves exactly when the queue has room for its remaining sends |
| TunnelAccounting.PrewarmCanBlockForever | internal/rathole/rathole.go:396-401 | a run after which the first client is connected, its queue holds sixty-four requests, and it can never be served |
| TunnelService.ServableIff | internal/rathole/rathole.go:439-478 | a visitor at a client can get one of its channels in some honest run exactly when the client has a channel queued or offered, or is current and has one presented or commanded, or a handler that can still ask |
| TunnelService.NewcomerServed | internal/rathole/rathole.go:459-478 | a visitor that arrives while a client with a running handler is current can be served by that client |
| TunnelService.FirstVisitorServed | internal/rathole/rathole.go:346-478 | from the start: a run in which a client connects and serves a visitor |
| TunnelService.UninvitedServes | internal/rathole/rathole.go:439-455 | a channel that nobody asked for but that presents the current client's key can serve a visitor |
| TunnelService.PoolIsAQueue | internal/rathole/rathole.go:448-471 | over any run a client's channels are taken in the order they were queued |
| TunnelService.PoolFills | internal/rathole/rathole.go:380-449 | a client's pool can be filled to sixteen channels and then takes no more |
| TunnelService.NoCommandAfterExit | internal/rathole/rathole.go:416-435 | once a command could not be written, or the handler left its loop, the client is sent no other command |
| TunnelService.ClientRetires | internal/rathole/rathole.go:403-410 | a client whose handler leaves its loop can be taken out of the slot and closed |
| TunnelService.GoneForGood | internal/rathole/rathole.go:470-521 | a visitor that gave up or is done never waits or holds a channel again |
| TunnelService.WaitsMayEnd | internal/rathole/rathole.go:448-477 | a wait for a channel, or an offer of one, may time out at any moment; the channel is then closed |
| TunnelService.AnythingMayFail | internal/rathole/rathole.go:425-428 | a command may fail to be written, which ends the handler, or be lost, and a visitor may be done, at any moment |
| UdpFrame.DecodeEncode | internal/rathole/rathole.go:920-957 | a written frame followed by anything reads back as that datagram, consuming exactly its bytes |
| UdpFrame.DecodePartial | internal/rathole/rathole.go:940-957 | no proper prefix of a frame reads as a frame |
| UdpFrame.EncodeDecode | internal/rathole/rathole.go:940-957 | whatever is read is exactly the encoding of the bytes consumed |
| UdpFrame.DecodeAllWritten | internal/rathole/rathole.go:917-957 | repeated reads of whole frames and a partial one return the whole frames in order |
| UdpFrame.Sink.WriteUdp | internal/rathole/rathole.go:920-938 | the four writes put out the encoding, or the prefix of it that the connection took; an oversized datagram puts out nothing |
| UdpFrame.Source.ReadUdp | internal/rathole/rathole.go:940-957 | the four reads succeed exactly when a whole frame is there, and leave the rest unread |
| UdpMux.FramesNeverInterleave | internal/rathole/rathole.go:846-938 | in every interleaving of the pumps the far end reads exactly the frames written in full in lock order; a partial frame is the last one and belongs to the lock holder until the channel breaks |
| UdpMux.RepliesReachTheirSource | internal/rathole/rathole.go:563-623 | the replies read are delivered in order, all while the loop runs and all but the one whose sending ended it after that; each to an address that had sent on this channel as the source whose local socket the reply was read from |
| UdpMux.ClientReadsWhatVisitorsSent | internal/rathole/rathole.go:588-622 | what the client reads is, in order, exactly the addresses and data the visitors sent while the server's loop ran, read off the run, but for frames not yet written in full |
| UdpMux.DatagramsReachTheirSocket | internal/rathole/rathole.go:862-909 | the next frame goes to an open socket of its own source, and to none exactly when the write fails, the source's socket is closed, or it has none and the dial fails |
| UdpMux.RepliesFramedInOrder | internal/rathole/rathole.go:879-901 | each socket's pump frames the replies read from it once each and in order, all of them while it reads and all but at most the last when it has stopped |
| UdpMux.ThereAndBack | internal/rathole/rathole.go:563-911 | from any quiet state, any datagram that fits a frame, of a visitor without a flow, can reach a socket of its own, and any non-empty reply that fits can come back from there to that visitor |
| UdpMux.NoSocketOutlivesClient | internal/rathole/rathole.go:854-866 | once the client's read loop has ended no local socket is open or read from, ever after |
| UdpMux.PumpStopsForGood | internal/rathole/rathole.go:882-900 | a pump whose socket or write failed reads nothing more |
| UdpMux.PumpWindsDown | internal/rathole/rathole.go:897-900 | a pump that stops can close its socket and free its source, which then has no live socket |
| UdpMux.NothingDeliveredAfterStop | internal/rathole/rathole.go:569-586 | when the server's reply loop has ended nothing more is delivered |
| UdpMux.UnframedEndsLoop | internal/rathole/rathole.go:612-620 | a datagram that finds the channel broken, or is too large, is still noted and ends the server's loop |
| UdpMux.OneSocketPerSource | internal/rathole/rathole.go:862-904 | the client never has two open local sockets for one source |
| FrpFlows.NoStreamLeaks | internal/frp/frp.go:381-433 | in every interleaving each stream ever opened is in the accept loop's hands, or in the table under its own source, or closed or about to be closed by its remover: one of the three |
| FrpFlows.NothingLeftOpen | internal/frp/frp.go:395-408 | once the accept loop has returned and no removal is half done, every stream is closed |
| FrpFlows.ReturnCloses | internal/frp/frp.go:807-814 | the accept loop can return between datagrams, and closes exactly the flows in the table as it does |
| FrpFlows.OwnStream | internal/frp/frp.go:410-427 | a datagram is written to a stream opened for the address it came from, the last one read off the run |
| FrpFlows.NewFlow | internal/frp/frp.go:410-424 | from any state between datagrams, a source without a flow gets a new stream under its address, stamped with the clock |
| FrpFlows.GoesOnAfterFailedOpen | internal/frp/frp.go:411-415 | after a stream could not be opened, or was closed at once, the next source is served |
| FrpFlows.ReapExact | internal/frp/frp.go:816-838 | a reap pass closes exactly the flows it visits whose stamp is before its cutoff, which is at least the timeout ago; when it ends every flow left has a later stamp, or was given an older one since its visit |
| FrpFlows.LateMeansSlow | internal/frp/frp.go:771-771 | a visited flow is given a stamp from before the cutoff only by a party that took longer than the timeout between reading the clock and storing |
| FrpFlows.UsedFlowSurvives | internal/frp/frp.go:771-856 | a flow is not reaped before the timeout has passed since its stamp, if no party is still to store an older one |
| FrpFlows.ReapedEarlyIff | internal/frp/frp.go:771-856 | a flow in the table can be reaped before the timeout has passed since its stamp exactly when a party has read the clock earlier and not yet stored it |
| FrpFlows.LateStampReaps | internal/frp/frp.go:840-855 | a run after which a flow just stamped can be reaped early, because the reader stores an older stamp over the loop's |
| FrpFlows.EvictsAnother | internal/frp/frp.go:419-422 | a reader's removal takes another flow exactly when its own is already out and the source is back in the table |
| FrpFlows.LoopRemovesOwn | internal/frp/frp.go:427-430 | the accept loop's removal, also by source address, takes its own flow or, if that is out already, none |
| FrpFlows.StaleReaderEvicts | internal/frp/frp.go:410-430 | a run in which a fresh, healthy flow is closed by the previous flow's reader |
| SocksParties.NegotiationOutcome | internal/socks/dialer.go:36-121 | for every setup within the protocol's limits and every interleaving: the client succeeds exactly when method, credentials and dial are accepted; then the server checked exactly its credentials, dialled exactly its target, and no byte is left over |
| SocksParties.NeverStuck | internal/socks/socks5.go:62-136 | within the limits, some step is enabled in every reachable state in which the client has not finished |
| SocksParties.NegotiationBounded | internal/socks/socks5.go:62-136 | from any state every interleaving ends within a rank of the state, from the start within seventeen steps |
| SocksParties.LimitsAreExact | internal/socks/dialer.go:36-121 | for every setup, with any lengths and any signed port: some run gives the client the tunnel it asked for exactly when it is accepted, its lengths are at most 255 and its port is from 0 to 65535 |
| SocksParties.HeardOutcome | internal/socks/dialer.go:76-121 | with credentials that fit, whatever the host and the signed port: the client succeeds exactly when the target that the wrapped length and port make of its request is accepted; that target is dialled, and the rest of the request is left in the stream |
| SocksParties.RightTargetIff | internal/socks/dialer.go:58-84 | for every setup: a client that has succeeded has the tunnel it asked for exactly when its lengths and its port are within the limits |
| SocksParties.WrongPortDialled | internal/socks/dialer.go:79-81 | for every port outside 0 to 65535, a run in which the client succeeds and that port modulo 2^16 has been dialled: 65456 for -80, 80 for 65616 |
| SocksParties.NoDialUncleared | internal/socks/socks5.go:62-156 | fed arbitrary bytes, a server that requires authentication has dialled, or become a UDP relay, only after exactly one credential check, which accepted |
| SocksTalk.ServerPicks | internal/socks/socks5.go:66-88 | whatever methods are offered, the server picks the one it wants if it is among them, and refuses otherwise |
| SocksTalk.ServerChecks | internal/socks/socks5.go:138-156 | any user name and password up to 255 bytes are checked as sent, once, and the verdict answered |
| SocksTalk.ServerWelcomes | internal/socks/socks5.go:66-93 | a client the server accepts is past greeting and credentials with exactly their bytes read, the two answers sent, and one check made |
| SocksTalk.ServerObeys | internal/socks/socks5.go:95-136 | for every IPv4, IPv6 or named host, every port and every command: CONNECT dials exactly that host and port and answers as the dial went, UDP ASSOCIATE makes a relay, anything else gets code 7; exactly the request is read |
| SocksTalk.ServerRefuses | internal/socks/socks5.go:67-104 | a wrong version or an unknown address type ends the conversation with the code for it |
| SocksTalk.ServerCutShort | internal/socks/socks5.go:95-110 | a request cut short anywhere gets code 7, 8 or 1 as it was cut in its head, its address or its port |
| SocksTalk.ServerCutLogin | internal/socks/socks5.go:138-154 | credentials cut short anywhere are refused without a check |
| SocksTalk.ClientConnectsIff | internal/socks/dialer.go:47-120 | told anything at all, the client succeeds with a given rest unread exactly when it was told its method, success for its credentials if any, and a reply of success with a bound address of any type, followed by that rest |
| SocksTalk.ClientEndsIff | internal/socks/dialer.go:47-120 | told anything and then cut off, the client succeeds exactly when it was granted its tunnel, and fails otherwise |
| SocksRelay.ParseBuilt | internal/socks/udpassociate.go:183-223 | every datagram of the format is accepted and split into its destination, port, data and header |
| SocksRelay.ParsedIsBuilt | internal/socks/udpassociate.go:183-223 | nothing else is accepted, and an accepted datagram is its header followed by its data |
| SocksRelay.HeaderRoundTrip | internal/socks/udpassociate.go:147-173 | a stored header before any payload parses back to the same destination and that payload |
| SocksRelay.NamesIff | internal/socks/udpassociate.go:115-115 | what the parser and the flow key make of a datagram is exactly the host, port and data its bytes are put together from |
| SocksRelay.Relay.Receive | internal/socks/udpassociate.go:97-117 | the first sender is the client and later strangers change nothing; a datagram put together from a header for a host and port and some data leaves that destination's flow and that data in hand, exactly if the destination has a flow or can be reached |
| SocksRelay.Relay.Forward | internal/socks/udpassociate.go:121-140 | a destination without a flow gets one, with the header for its replies |
| SocksRelay.Relay.Send | internal/socks/udpassociate.go:142-144 | the data goes to the destination of the flow in hand, or nowhere if its pump has closed the socket since the look-up |
| SocksRelay.SentWasAsked | internal/socks/udpassociate.go:97-145 | everything ever sent is the destination and the data of one of the client's own datagrams |
| SocksRelay.AnswerWasReplied | internal/socks/udpassociate.go:147-173 | every answer goes to the client, names a destination the client had named, and carries what was read from that destination, or a prefix of it |
| SocksRelay.Relay.Reply | internal/socks/udpassociate.go:158-172 | the client gets a datagram that names the flow's destination and carries the reply, or its front if header and reply exceed 65536 bytes |
| SocksRelay.Relay.Forget | internal/socks/udpassociate.go:151-156 | a pump that ends removes by destination, yet what it removes is always its own entry, and every other live pump keeps its own |
| SocksRelay.OnePumpPerDest | internal/socks/udpassociate.go:121-140 | no two pumps are at work for one destination |
| SocksRelay.PortsApart | internal/socks/udpassociate.go:115-127 | datagrams whose ports differ never share a flow |
| Alerts.FiringIffHeld | internal/telegram/alerts.go:251-277 | for any history, with thresholds that change from pass to pass and passes that are off: firing exactly when some reading reached its threshold and every later one is at least its own threshold - 5 |
| Alerts.SaysWhatIsDue | internal/telegram/alerts.go:251-277 | each reading adds exactly the message it calls for: a fire, a reminder if the cooldown has passed since the last message, a recovery, or none, stated over the history and the messages so far |
| Alerts.EachByItsOwn | internal/telegram/alerts.go:279-284 | after any passes processor, memory and disk fire each exactly by its own values and thresholds |
| Alerts.LogOrderly | internal/telegram/alerts.go:251-277 | messages are episodes of one fire, reminders at least the cooldown then in force apart, and one recovery; they agree with the state |
| Alerts.EpisodeBound | internal/telegram/alerts.go:251-277 | an episode under cooldowns of at least c whose messages span D sends at most 1 + D/c of them |
| Alerts.FaithfulDiff | internal/telegram/alerts.go:316-354 | replaying a pass's messages, in any order, on the old map gives the new map less the new tunnels already up; newcomers, removals and unchanged tunnels are told apart |
| Alerts.StoryAlternates | internal/telegram/alerts.go:316-354 | over any passes, down and up messages about a tunnel alternate until it is removed |
| Alerts.Watcher.CheckResource | internal/telegram/alerts.go:251-277 | the stored state and message of one resource; the others are untouched |
| Alerts.Watcher.CheckTunnels | internal/telegram/alerts.go:316-354 | the first pass is silent; later ones say exactly what changed, once per tunnel, existing tunnels first and sorted by name |
| Alerts.BeforeIff | internal/telegram/alerts.go:328-328 | the order of names is lexicographic: at the first difference the smaller character or the shorter name |
| Alerts.Watcher.CheckRelease | internal/telegram/alerts.go:301-312 | a release is announced unless it is the last one announced, so never twice in a row |
| Alerts.Watcher.CheckAt | internal/telegram/alerts.go:247-293 | one pass checks the three resources independently, then tunnels and release if switched on; the stored states stay those of the whole history of passes |
| Watchdog.TrackMeans | internal/manage/watchdog.go:31-68 | the three remembered values mean, of the whole run, exactly: seen healthy, dropped at the last look without a restart, and time of the last restart |
| Watchdog.RestartIff | internal/manage/watchdog.go:44-68 | a restart happens exactly at a second consecutive dropped look since the last reset, after a healthy one, more than the cooldown after the last restart |
| Watchdog.RestartsSpaced | internal/manage/watchdog.go:60-62 | with a monotone clock two restarts of one tunnel are more than the cooldown apart |
| Watchdog.TunnelsIndependent | internal/manage/watchdog.go:44-68 | a tunnel's state depends on the looks at that tunnel alone |
| Watchdog.Dog.Visit | internal/manage/watchdog.go:45-68 | one look updates the maps to the state after the longer run and reports whether it restarts |
| Watchdog.Dog.Tick | internal/manage/watchdog.go:42-70 | a tick restarts exactly the tunnels its looks call for |
| History.CutSound | internal/tunhist/tunhist.go:45-54 | the groups are the history itself cut at hour changes: each non-empty, within one hour, neighbours in different hours |
| History.HoursAppend | internal/tunhist/tunhist.go:109-126 | the in-place bucket update equals recomputing all buckets from the full history |
| History.GrowTrimmed | internal/tunhist/tunhist.go:110-126 | updating commutes with trimming to the newest buckets |
| History.UpAtMostAll | internal/tunhist/tunhist.go:45-54 | no bucket counts more readings up than it has |
| History.HourOf | internal/tunhist/tunhist.go:109-109 | the start of the hour a reading falls in |
| History.HoursTile | internal/tunhist/tunhist.go:45-54 | the buckets of any history tile it: each is about a stretch of readings within its hour, with their number, the number up and the last byte counts |
| History.Roll | internal/tunhist/tunhist.go:109-126 | the code's branches compute the bucket update, trimming only when a bucket is added |
| History.Tunnel.Add | internal/tunhist/tunhist.go:104-126 | Recent is the last 288 readings and Hourly the last 720 buckets of everything recorded |
| History.File.Record | internal/tunhist/tunhist.go:97-127 | a reading extends its own tunnel's history and no other |
| History.File.Prune | internal/tunhist/tunhist.go:131-137 | exactly the tunnels not in the given set are dropped |
| PortUsage.ConservedIffNothingLost | internal/web/sniffer.go:161-260 | after any interleaving of adds, page views and any number of saves, overlapping or failing at any point, a port's usage on file, in memory and in flight is everything ever added modulo 2^64 exactly when the losses of the steps sum to zero |
| PortUsage.UsageConserved | internal/web/sniffer.go:161-260 | from a start with nothing counted, saves that do not overlap and do not fail lose nothing on any port, whatever is added between their phases, if page views create the file only while it holds nothing |
| PortUsage.TotalMatchesFile | internal/web/sniffer.go:219-239 | after any run of non-overlapping saves of which one has completed, the file holds each port once and the total is its sum, except while a save adds up or writes |
| PortUsage.SumOfMerge | internal/web/sniffer.go:199-226 | the merged list adds up to the sum of both lists modulo 2^64, in whatever order it is listed |
| PortUsage.FailedWriteTotal | internal/web/sniffer.go:219-239 | a save that cannot open the file leaves a total that agrees with the file exactly when all it had drained sums to zero |
| PortUsage.FailedWriteLoses | internal/web/sniffer.go:235-239 | when the file cannot be opened for writing a port stays conserved exactly if this save had drained nothing for it |
| PortUsage.FailedSaveRun | internal/web/sniffer.go:178-240 | a run from an empty start, for any port and usage, after which the usage is gone |
| PortUsage.RecoversIff | internal/web/sniffer.go:178-260 | some run still completes a save exactly when not all of this holds: the file does not decode, no save is under way, and no page view is about to create the file |
| PortUsage.DamagedRun | internal/web/sniffer.go:184-239 | a run from an empty start with one save whose write fails part way: the usage is gone and no save completes ever after |
| PortUsage.BrokenWriteLoses | internal/web/sniffer.go:235-239 | a write that fails part way keeps a port conserved exactly if the file and the save together held nothing for it |
| PortUsage.ViewLoses | internal/web/sniffer.go:242-248 | a page view that had found no file keeps a port conserved exactly if the file it now truncates holds nothing for it |
| PortUsage.ViewRun | internal/web/sniffer.go:242-248 | a run with one save that neither fails nor overlaps, in which a page view that looked before it and acts after it drops the usage |
| PortUsage.FailedViewMendsNothing | internal/web/sniffer.go:246-257 | the one page view still under way on a damaged file, if it cannot create the file or cannot write to it, leaves it damaged for good |
| PortUsage.StaleWriteLoses | internal/web/sniffer.go:178-240 | a write keeps a port conserved exactly if the file still holds for it what the save loaded |
| PortUsage.OverlappingSavesLose | internal/web/sniffer.go:99-105 | of two saves that loaded the same file, the second to write keeps a port conserved exactly if the first had drained nothing for it |
| PortUsage.OverlapRun | internal/web/sniffer.go:99-105 | a run from an empty start, for any port and usage, in which the second of two overlapping saves drops the usage |
| PortUsage.Usage.AddOrUpdatePort | internal/web/sniffer.go:161-176 | the port's count grows by the usage, the others stay |
| PortUsage.Usage.Collect | internal/web/sniffer.go:311-324 | the store is emptied into a list that holds each port once |
| PortUsage.ReadList | internal/web/sniffer.go:202-205 | a list read into a map, later entries replacing earlier ones |
| PortUsage.AddList | internal/web/sniffer.go:207-217 | the merge loop is the port-by-port sum |
| PortUsage.Usage.MergeLists | internal/web/sniffer.go:199-226 | the merged list holds each port of either list once with the sum, and the total is its sum |
| PortUsage.Usage.SaveUsageData | internal/web/sniffer.go:178-240 | a whole save: an undecodable file is left alone and so are the counts; otherwise counts are drained and the total replaced, and the file is the merged list, or damaged, or untouched as the write goes |
| Totals.TotalIsTruth | internal/metrics/metrics.go:148-187 | across any processes that can read the file, each with one collector, the file holds the bytes counted up to its last snapshot, modulo 2^64 |
| Totals.TotalNeverFalls | internal/metrics/metrics.go:216-232 | under the same conditions the total on file never decreases while the bytes counted stay below 2^64 |
| Totals.FileHoldsWhatWasKept | internal/metrics/metrics.go:148-232 | for any sequence of process starts, byte counts and saves that begins with a start, the file holds what it started with and what the books of those events keep, modulo 2^64 |
| Totals.PlayRuns | internal/metrics/metrics.go:148-232 | every such sequence of events is a run of the machine |
| Totals.TruthIffNothingShownTwice | cmd/cmd.go:74-103 | with any reloads, unreadable files, failures, and snapshots, writes of the shared temporary file and renames of several collectors in any order, the file is right exactly when it holds nothing twice over and lacks nothing |
| Totals.WriteRightIff | internal/metrics/metrics.go:216-232 | a whole write leaves the file right exactly when its collector's base holds nothing twice over and lacks nothing |
| Totals.FailedWriteIsRetried | internal/metrics/metrics.go:228-231 | a collector whose write or rename failed leaves the file alone and can write the present total next time |
| Totals.ReloadHarmlessIff | cmd/cmd.go:41-53 | after a reload on a right file, a write of the new collector leaves it right exactly when the file held nothing of this process at the reload, whatever is written in between |
| Totals.ReloadRun | cmd/cmd.go:41-53 | a process that has written n bytes and reloads: the next write leaves the file wrong |
| Totals.UnreadableHarmlessIff | internal/metrics/metrics.go:169-171 | a process that cannot read an existing file starts from zero; its writes are right exactly when nothing had been counted before it |
| Totals.UnreadableRun | internal/metrics/metrics.go:169-171 | a run in which such a process drops n bytes |
| Totals.Process.constructor | internal/metrics/metrics.go:148-173 | a process starts from zero with a base read from the file, zero if there is none or it cannot be read: the machine's Launch step |
| Totals.Process.AddBytes | internal/metrics/metrics.go:322-329 | the live counter moves by the machine's Add step, modulo 2^64 |
| Totals.Process.Reload | cmd/cmd.go:41-53 | one more collector over the running counter: the machine's Reload step |
| Totals.Process.Write | internal/metrics/metrics.go:216-232 | one write is the machine's snapshot, write and rename of that collector; if writing or renaming fails the file stays |
| IpRange.ExpandCidr | internal/spooftest/iprange.go:63-79 | for every prefix 0 to 32 the block's 2^(32-prefix) addresses in ascending order, without 32-bit wrap; nothing for a mask longer than 32 bits |
| IpRange.CidrExact | internal/spooftest/iprange.go:63-79 | an address is listed exactly when it shares the block's prefix bits |
| IpRange.ExpandRange | internal/spooftest/iprange.go:81-101 | the closed interval between the ends in either order, ascending, ending even at 255.255.255.255 |
| IpRange.AppendUnique | internal/spooftest/iprange.go:127-137 | only unseen addresses are appended, in order of first occurrence |
| IpRange.ExpandSpec | internal/spooftest/iprange.go:24-38 | a single address, a range, a block, an IPv4 block written as IPv6, or an error |
| IpRange.MappedExpandsToNothing | internal/spooftest/iprange.go:68-77 | an IPv4 block written as IPv6 is accepted exactly with a prefix from 96 to 128, and then expands to no address at all |
| IpRange.ExpandCovers | internal/spooftest/iprange.go:24-101 | a spec expands exactly if it is accepted, and then to exactly the addresses it covers |
| IpRange.ExpandList | internal/spooftest/iprange.go:43-61 | the list is refused exactly if some spec is; otherwise it holds exactly the addresses some spec covers, each once, in first-seen order |
| IpRange.BytesRoundTrip | internal/spooftest/iprange.go:139-143 | an address's big-endian bytes give the address back |

## Left out

- Menus, prompts, the web panel, the Telegram bot, systemd, iptables and sysctl: input and output only.
- Noise, TLS and uTLS wrapping, smux, kcp-go and the packet and hedioum engines: connections and streams are reliable byte queues that may end.
- rathole and frp as objects: apart from the slot and the frame readers and writers they are modelled on values, one step per critical section, because the properties are about interleavings; aliasing of channels and connections is represented by numbers.
- The rathole Hello, Auth and Ack messages, the forward target frame, and frp's frames: fixed layouts that would only add easy round trips.
- TCP splicing and the byte counts it reports.
- The peer address metric, which rathole and frp set outside the lock.
- Progress: nothing is claimed about when a visitor is served, a flow reaped or a message sent.
- SocksParties.NegotiationOutcome: deadlines, and the printed form of IP addresses, are not modelled; JoinHostPort is the pair of host and port.
- SocksParties.HeardOutcome: what a server makes of credentials longer than 255 bytes is not spelled out; that no such client gets its tunnel is in LimitsAreExact and RightTargetIff.
- SocksRelay.Relay.Reply: a reply that the operating system refuses to send, after which the pump ends, is a Forget without a reply.
- Alerts: readings are reals, so NaN is not covered; how the newest release is found is an input.
- Watchdog: how a tunnel is found active or healthy from the socket table is an input.
- History: saving and loading the JSON file is taken to preserve it.
- PortUsage.TotalMatchesFile: the total under overlapping saves is not claimed to be anything; one addition to it is a single step.
- PortUsage.ConservedIffNothingLost: the data is written in one piece; of two writers at once the file is the list of the one that finishes last.
- Totals: one direction of traffic; a temporary file renamed while the other collector is half way through writing it, and a collector given its own byte accessors, are not modelled.
- IpRange: parsing of the textual specs, and reading them from a file; a spec is a parsed value or invalid.
- The TOML render and load round trip, presets, default filling, the configuration watcher, the geo cache, version comparison and cron specs.

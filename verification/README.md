# vwifi, modelled and proved in Dafny

vwifi carries the 802.11 frames of virtual machines. `vwifi-server` is one event loop: it accepts
clients and spies, reads from whoever is ready one power byte followed by one netlink message, and
sends that pair on to everybody else, attenuated by distance and possibly lost on the way to the
clients, untouched on the way to the spies. It remembers the place and the name of clients that left
in a queue of 15 records, and it obeys `vwifi-ctrl`. `vwifi-client` runs five interruptible tasks and
has a protocol to stop them.

The project models that server, the protocol that stops the client, the radio arithmetic, and the
answer to `vwifi-ctrl ls`, and proves what they promise over every run. `dafny verify dfyconfig.toml`
checks all of it.

How the model is built:

- **Values and their laws.** `Wire` (frames, the reference decoder), `Channels` (one connection: what
  the peer sends, how `recv` cuts it, how much `send` takes, what was written), `Registry` and
  `RegistryMap` (sockets, infos, disconnected infos), `Scheduler`, `Radio`, and `Relay`: the whole server
  as one value, with `Step` for one turn of its event loop and `Run` for any number of turns.
  `RelayRegistry.Trace` is the sequence of registry operations that a run performs on one side.
- **The program's own form.** `DynBuffers.DynBuffer`, `Sockets`, `Scheduler.Selector`,
  `WifiServers.WifiServer` and `RelayServers.RelayServer` are the mutable classes and loops of the
  source. Every method is proved to do to the fields exactly what the functions above say, so that
  `RelayServers.Serve` ends in the state `Run` describes, and everything proved of `Run` holds of it.
- **The environment is a parameter.** `accept` returns any descriptor that is not open, any CID and a
  peer with any behaviour; `recv` delivers any part of what it was asked for, or fails; `send` takes
  all its bytes, or a strict prefix and fails; `rand` returns anything; `pselect` reports any registered
  descriptors; orders come in any sequence; a descriptor number may be used again once it was closed.
  `log`, `since`, `conn` and `heard` are history: nothing the server decides depends on them.
- **Two strengths of the invariant.** `RelayInvariant.Inv(s, false)` holds for all peers. With
  `Inv(s, true)` every header of every peer announces between 16 and 2352 bytes, which is what the
  statements about frames need; `Channels.InStepExactly` shows that this is the exact condition. The
  netlink header is that of section 2.3.2 of RFC 3549.

Main results: `RelayTheorems.StreamIntegrity`, `RelayTheorems.SpyHearsAll`, `RelayTheorems.ClientHears`,
`RelayDue.ServerHearsExactly`, `RelayTheorems.ForwardIsFold`, `RelayTheorems.ForwardSurvivors`,
`RelayFanOut.RelayedExact`, `RelayDescriptors.ServerDescriptors`,
`RelayHistory.EndIsFinal`, `RelayHistory.FreshUnread`, `RelayRuns.RunKeeps`, `RelayRegistry.ServerIsMap`,
`RelayRegistry.ServerForgetsNothing`, `RelayRegistry.ServerEvictsLate`, `RelayListing.ServerListedExactly`,
`RelayLevels.ServerOccasions`, `RelayLevels.ClientDue`, `RelayOrders.ServerSettings`,
`RegistryLaws.AcceptPlace`, `Registry.AcceptCounts`, `Shutdown.Safety`, `Shutdown.InterruptsAll`,
`Shutdown.ReturnsExactly`, `Shutdown.Hangs`, `Radio.Triangle`.

Where something expected turns out false of the code, the code is kept as it is:

- "At most one enabled entry per CID" is not kept: `RelayTwoEnabled.ServerTwoEnabled` is a run of the
  server that breaks it, `Registry.SingleExactly` says exactly when one accept keeps it,
  `Registry.AcceptCounts` is what always holds.
- "A client that comes back gets its place again" is not kept when its broken entry has not been purged
  yet: `RegistryLaws.BrokenForgotten`, `RelayOrders.ServerForgetsBroken`; `RegistryLaws.AcceptPlace`
  says which place it gets.
- A list with a disabled entry is sent with too large a count, and the client program tests for -1
  where its own function returns 1 for an error (src/vwifi-ctrl.cc:60, src/vwifi-ctrl.cc:165), so it
  goes on with whatever it reads next: `ControlList.ListExact`, `ControlList.DisabledMisread`.
  `ControlList.ListRightExactly` and, over runs, `RelayListing.ServerListedExactly` say exactly when
  the answer is read back right all the same: a take-over is one such case.
- Stopping the client hangs once its monitor has found the driver unloaded, has failed to initialise
  again and so has left its loop without `dead()`: `Shutdown.Hangs`, `Shutdown.MonitorHangs`. `Shutdown.CountExactly` and
  `Shutdown.ReturnsExactly` say exactly when the counter counts the tasks at work, and when `stop` returns.
  The `dead()` inside `init_netlink` (src/ckernelwifi.cc:368-371) is never reached from the monitor:
  `_being_initialized` is false by then, and the loop is left before it (src/ckernelwifi.cc:361-362,
  src/ckernelwifi.cc:754).
- Attenuation is 0 at distance 0, and a receiver at a tiny distance is louder than one at distance 0:
  `Radio.ZeroDistance` has the exact condition, `Radio.LouderNearby` such a receiver.
- "Closing a client closes its descriptor" is not kept: a socket that is disabled is skipped
  (src/cinfosocket.cc:48), so a broken or taken-over connection keeps its descriptor for good:
  `RelayDescriptors.ServerDescriptors`, `RelayDescriptors.EndedLeaks`.
- Squared distances overflow a 32-bit integer for coordinates beyond 13377: `Radio.ExactCube`.

## Model

| member | source | states |
|---|---|---|
| `Wire.EncodeLayout` | src/cwifi.cc:65-74 | a frame on the wire is its power as one byte in two's complement, then its message |
| `Wire.DecodeOfEncode` | src/cwifi.cc:65-97 | the reference decoder gives back every sequence of well-formed frames and leaves an incomplete rest alone |
| `Wire.EncodeOfDecode` | src/cwifi.cc:65-97 | decoding any stream loses no byte, and what it yields is well formed |
| `Wire.CutFrameIncomplete` | src/cwifi.cc:65-74 | a strict prefix of a frame decodes to nothing |
| `Wire.HonestEncoding` | src/cwifi.cc:65-74 | a stream of well-formed frames announces acceptable lengths only |
| `Channels.ReadExactLaw` | src/csocket.cc:62-85 | the reading loop consumes a prefix of the stream, never more than asked, exactly as much when it succeeds |
| `Channels.ReadExactWilling` | src/csocket.cc:62-85 | however recv cuts the stream, the next n bytes are delivered |
| `Channels.ReceiveConsumes` | src/cwifi.cc:76-97 | for every header value reception consumes at most 1 + 2352 bytes, and what it returns is those bytes |
| `Channels.ReceiveHonest` | src/cwifi.cc:76-97 | from a peer whose headers are in range, what is received is one whole frame and the rest is again such a stream |
| `Channels.ReceiveWilling` | src/cwifi.cc:76-97 | one frame in front of any bytes is received unchanged whatever the chunks, and the next read starts behind it |
| `Channels.RoundTrip` | src/cwifi.cc:65-97 | every sequence of frames, under every chunking, is received as it was sent, and the receiver is left in step behind it |
| `Channels.NothingFromPart` | src/cwifi.cc:76-97 | from a stream that ends inside a frame nothing is received |
| `Channels.InStepExactly` | src/cwifi.cc:91-96 | the receiver stays in step if and only if the announced length is between 16 and 2352 |
| `Channels.SendSignalLaw` | src/cwifi.cc:65-74 | a frame is written whole and reported sent, or cut short and reported broken |
| `Channels.SendSignalExactly` | src/csocket.cc:35-42 | a frame goes through if and only if the two sends take its power and its whole message |
| `Channels.WrittenShape` | src/cwifi.cc:65-74 | a history in which nothing follows a broken frame has written whole frames, then at most one partial frame |
| `DynBuffers.DynBuffer.constructor` | src/cdynbuffer.cc:8-13 | the capacity starts at 1024 |
| `DynBuffers.DynBuffer.NeededSize` | src/cdynbuffer.cc:25-31 | the capacity never shrinks nor falls below 1024, and growth keeps the bytes when asked to |
| `DynBuffers.DynBuffer.Allocate` | src/cdynbuffer.cc:38-62 | the new buffer begins with all the old bytes when they are to be kept |
| `Sockets.SendBytes` | src/csocket.cc:35-42 | an error unless every byte was taken |
| `Sockets.SendSignalWithSocket` | src/cwifi.cc:65-74 | negative exactly when the frame was not written whole, for every message |
| `Sockets.Read` | src/csocket.cc:53-60 | the bytes of recv go to the given position; those before it and those behind them stay |
| `Sockets.Fill` | src/csocket.cc:72-82 | the loop leaves what was already read and appends the reading of the specification, every write inside the buffer |
| `Sockets.ReadEqualSize` | src/csocket.cc:62-85 | the bytes already read survive the growth of the buffer, the others follow them |
| `Sockets.RecvSignalWithSocket` | src/cwifi.cc:76-97 | value, power, message bytes and rest of the stream are those of the specification, for every header value |
| `Registry.AcceptEntries` | src/cwifiserver.cc:132-155 | Accept clears at most one flag, only that of an enabled entry of the same CID when no record is archived, and adds one enabled entry |
| `RegistryLaws.AcceptPlace` | src/cwifiserver.cc:93-155 | whatever the flags and however often the CID occurs, the new entry has the place and the name of the first archived record of the CID, else of its first enabled entry, else the origin and no name; no other info changes |
| `RegistryLaws.BrokenForgotten` | src/cwifiserver.cc:116-144 | a client all of whose entries are disabled, with nothing archived, comes back at the origin and without a name |
| `RegistryLaws.MovesFirst` | src/cctrlserver.cc:149-171 | "set" places the first client of the CID, else its first archived record, else adds a record without a name; CIDs below 3 are ignored |
| `RegistryLaws.NamesFirst` | src/cctrlserver.cc:190-211 | "setname" names the first client of the CID, else its first archived record, the name cut to 12 characters |
| `RegistryLaws.ClipLaw` | src/cinfowifi.cc:28-34 | a name is kept as its first 12 characters |
| `Registry.AcceptCounts` | src/cwifiserver.cc:93-155 | the enabled entries and archived records of the CID become max(1, their number), those of every other CID stay |
| `Registry.TakeOver` | src/cwifiserver.cc:111-155 | the only live entry of a CID hands its place and name to the new one, and exactly one stays enabled |
| `Registry.SingleExactly` | src/cwifiserver.cc:144-144 | at most one enabled entry survives Accept if and only if the CID is not both enabled and archived |
| `Registry.TwoEnabled` | src/cwifiserver.cc:132-174 | two accepts, a purge and an accept of one CID leave two enabled entries |
| `Registry.FindEnabledShort` | src/cwifiserver.cc:111-130 | the search made while the socket list is one entry longer finds what the aligned lists hold |
| `Registry.QueueKeeps` | src/cwifiserver.cc:263-269 | under any additions, removals from the middle and rewritings the queue stays within capacity, a record keeps its CID, and it is evicted no earlier than the Max-th addition after its own |
| `Registry.QueueEvicts` | src/cwifiserver.cc:263-269 | without removals it is evicted exactly then |
| `Registry.CloseAllArchive` | src/cwifiserver.cc:176-183 | closing all clients leaves the last Max elements of the old queue followed by the connected infos |
| `RegistryMap.StepLaw` | src/cwifiserver.cc:93-174 | one operation of a clean run keeps all CIDs distinct and acts on the looked-up places as on a map; only a full queue forgets |
| `RegistryMap.RunIsMap` | src/cwifiserver.cc:93-174 | the same over every clean run: a key never evicted has the value of a plain map |
| `RegistryRuns.ArchiveIsQueue` | src/cwifiserver.cc:93-109 | the disconnected infos of every run of the registry, clean or not, are a run of that queue |
| `RegistryRuns.EvictedLate` | src/cwifiserver.cc:263-269 | so no run of the registry evicts a record before the Max-th addition after its own |
| `RegistryRuns.AllSpared` | src/cwifiserver.cc:263-269 | with no more CIDs than the queue has room for, no clean run evicts any |
| `RelayRegistry.ForwardTraced` | src/vwifi-server.cc:42-85 | whatever ForwardData reads and sends, what it does to the lists is the leaves and drops of its trace |
| `RelayRegistry.ControlTraced` | src/cctrlserver.cc:137-219 | an order is one update of one key, the leaves of all, or nothing |
| `RelayRegistry.RunTraced` | src/vwifi-server.cc:156-229 | every run of the server does to the lists of each side exactly what its trace says |
| `RelayRegistry.ServerEvictsLate` | src/cwifiserver.cc:263-269 | no run of the server evicts a record before the Max-th addition after its own |
| `RelayRegistry.ServerRemembers` | src/vwifi-server.cc:109-120 | in every run at most 15 clients and 1 spy are remembered |
| `RelayRegistry.ServerIsMap` | src/vwifi-server.cc:156-229 | every clean run of the server keeps all CIDs of a side distinct, and a CID that no leave or order of the run pushes out of the full queue has the place that a plain map has after the same accepts and orders |
| `RelayRegistry.ServerForgetsNothing` | src/config.h:10-10 | in a clean run over at most 15 CIDs the lists are exactly that map |
| `Scheduler.MaxOfLaw` | src/cselect.cc:25-30 | the maximum bounds all nodes and is one of them, -1 for none |
| `Scheduler.AddAgrees` | src/cselect.cc:32-44 | adding a new descriptor keeps list, set and maximum in agreement |
| `Scheduler.DelAgrees` | src/cselect.cc:46-66 | deleting one removes exactly that one and keeps the agreement |
| `Scheduler.Selector.AddNode` | src/cselect.cc:32-44 | the fields become those of the specification |
| `Scheduler.Selector.DelNode` | src/cselect.cc:46-66 | the nested scan and in-place erasure compute the specification, maximum included |
| `Scheduler.Selector.Wait` | src/cselect.cc:73-86 | Dup holds registered descriptors only |
| `Radio.DistanceSymmetric` | src/ccoordinate.cc:55-63 | the distance is symmetric |
| `Radio.DistanceZero` | src/ccoordinate.cc:55-63 | it is never negative, and zero if and only if the coordinates are equal |
| `Radio.CauchySchwarz` | src/ccoordinate.cc:55-63 | the integer Cauchy-Schwarz inequality under the triangle inequality |
| `Radio.Triangle` | src/ccoordinate.cc:55-63 | the triangle inequality, for all coordinates and every positive scale |
| `Radio.ExactCube` | src/ccoordinate.cc:55-63 | all 32-bit intermediate values are exact on [-b, b]^3 if and only if b <= 13377 |
| `Radio.AttenuationMonotone` | src/cwifi.cc:35-43 | attenuation, truncated to an integer, is monotone over positive distances |
| `Radio.BoundedPower` | src/cwifi.cc:45-52 | every level is within [-128, -10] |
| `Radio.LevelLaw` | src/cwifiserver.cc:205-206 | the level between two places is the power less the whole part of 92.45 + 20(log10 f - 3) + 20(log10 d - 3), nothing at d = 0, cut to [-128, -10], where d is the scale times the root of the squared differences |
| `Radio.LossDraw` | src/cwifi.cc:54-63 | for every value 53k + r of rand(), 0 <= r < 53, the frame is lost if and only if r < clamp(-level-39, 0, 53) |
| `Radio.LossMonotone` | src/cwifiserver.cc:205-209 | with the same draw, who gets the frame implies that everyone closer gets it, at least as loud |
| `Radio.ZeroDistance` | src/cwifi.cc:37-42 | a receiver at d > 0 is louder than one at 0 if and only if 20 log10(frequency) + 20 log10(d) <= 26.55 |
| `Radio.LouderNearby` | src/cwifi.cc:37-42 | such a receiver: frequency 2412, neighbours 1 apart with scale 0.001, power -50 |
| `Radio.LossCount` | src/cwifi.cc:54-63 | exactly clamp(-level-39, 0, 53) of the 53 draws lose the frame: none at -39 or louder, all at -92 or weaker |
| `RelayInvariant.FanOutKeeps` | src/cwifiserver.cc:195-232 | a cast keeps the invariant: streams in order, lists aligned, flags true, scheduler in agreement |
| `RelayInvariant.VisitKeeps` | src/vwifi-server.cc:49-83 | so does one turn of the loop of ForwardData |
| `RelayInvariant.ForwardKeeps` | src/vwifi-server.cc:42-85 | so does ForwardData |
| `RelayInvariant.AdmitKeeps` | src/vwifi-server.cc:187-201 | so does an accept on a descriptor not in use, take-over included |
| `RelayRuns.ControlKeeps` | src/cctrlserver.cc:406-455 | so does every order |
| `RelayRuns.StepKeeps` | src/vwifi-server.cc:156-229 | so does one turn of the event loop |
| `RelayRuns.RunKeeps` | src/vwifi-server.cc:156-229 | at the head of every turn of every run: position i of the sockets and of the infos are one connection, an entry is enabled exactly while its connection lives, every registered descriptor is open, the scheduler holds exactly the masters, the clients and the spies, once each, with their maximum |
| `RelayRuns.StartInv` | src/vwifi-server.cc:148-154 | the invariant holds when the loop begins |
| `RelayRuns.WrittenDecodes` | src/cwifiserver.cc:195-232 | what was written to a connection decodes to the frames sent whole, in order |
| `RelayFanOut.FanOutExact` | src/cwifiserver.cc:195-232 | after one cast each entry was offered its frame exactly once, unless it is the sender, disabled, or lost by its own draw: the one whose number is that of the enabled entries before it, the sender apart |
| `RelayFanOut.RelayedExact` | src/vwifi-server.cc:71-80 | a frame is offered exactly once to every enabled spy at the original power, never to its sender, and to every other enabled client but those whose draw loses it; a flag is cleared if and only if the send failed |
| `RelayHistory.FreshUnread` | src/cselect.cc:73-92 | a connection accepted in a turn is not read in that turn, whatever is closed in it |
| `RelayHistory.RunGrown` | src/cwifiserver.cc:195-232 | in every run the history and the written bytes of a connection only grow |
| `RelayHistory.EndIsFinal` | src/cinfosocket.cc:12-53 | a connection broken, taken over or closed is in no later turn sent to, read from, closed again or enabled again |
| `RelayDescriptors.CloseFdOpen` | src/cinfosocket.cc:46-53 | closing an enabled socket takes the descriptor from its connection and from no other; a disabled one keeps it |
| `RelayDescriptors.ServerDescriptors` | src/cinfosocket.cc:46-53 | in every run of the server the open descriptors are exactly those of the connections whose last event is not their close |
| `RelayDescriptors.EndedLeaks` | src/csocketserver.cc:141-148 | a connection that was broken or taken over keeps its descriptor through every later run, with no entry enabled for it |
| `RelayLedger.StepLedger` | src/vwifi-server.cc:156-229 | a turn keeps the books: what each enabled spy was sent is what all others sent since it was accepted, likewise for clients while loss is disabled, and a subsequence of it in any case |
| `RelayLedger.RunLedger` | src/vwifi-server.cc:156-229 | so does every run |
| `RelayTheorems.VisitErases` | src/vwifi-server.cc:51-69 | an entry is erased by its visit if and only if it is disabled, or ready and what is read of it is not positive |
| `RelayTheorems.ForwardIsFold` | src/vwifi-server.cc:42-85 | ForwardData is a fold over the list as it was at entry: every entry is visited once, in order, despite erasure |
| `RelayTheorems.ForwardSurvivors` | src/vwifi-server.cc:47-69 | of the list at entry exactly those stay, in order, that are neither disabled nor failing to be read after the visits of those before them |
| `RelayTheorems.StreamIntegrity` | src/cwifiserver.cc:195-232 | over every run the bytes of each connection are whole frames and at most one partial frame, and its peer, however recv cuts them, receives exactly the whole ones and then nothing |
| `RelayTheorems.SpyHearsAll` | README.md:33-34 | an enabled spy can decode exactly the frames received from everybody else since it was accepted, powers included, even if loss is enabled |
| `RelayTheorems.ClientHears` | src/cwifiserver.cc:195-213 | so can every enabled client, powers apart, in a run in which loss is never enabled; in every run it can decode a subsequence, in order and with nothing twice |
| `RelayDue.VisitPays` | src/vwifi-server.cc:58-81 | a visit sends each living connection exactly the frame it is due, at its level, unless its own draw loses it, and nothing else |
| `RelayDue.RunPays` | src/vwifi-server.cc:156-229 | over every run a living connection is sent exactly what it is due |
| `RelayDue.ServerHearsExactly` | src/cwifiserver.cc:195-232 | in every run, whatever the loss setting, an enabled spy or client can decode exactly what it is due, powers and levels included |
| `RelayLevels.ClientDue` | src/cwifiserver.cc:195-213 | a frame of one client is for another the same message at the level between their places, unless loss is enabled and the draw loses it whose number is that of the enabled clients before, the sender apart |
| `RelayLevels.SpyDue` | src/cwifiserver.cc:215-232 | a frame of a spy, or for a spy, is passed on as it is, but never to its sender |
| `RelayLevels.SenderDue` | src/cwifiserver.cc:202-203 | a client gets nothing of its own frame |
| `RelayLevels.SamePlace` | src/cwifi.cc:37-52 | between equal places a frame only has its power cut to [-128, -10] |
| `RelayLevels.ClientDueVisit` | src/vwifi-server.cc:71-75 | the same of the visit that relays the frame and of the connection of the other client |
| `RelayLevels.RunDueOn` | src/vwifi-server.cc:156-229 | what a connection is due over a run is what it is due on the visits of the run, one after the other |
| `RelayLevels.ServerOccasions` | src/vwifi-server.cc:156-229 | in every run an enabled party can decode exactly what it is due on the visits of the run, each at the scale and the loss flag of the last orders read by then |
| `RelayOrders.OrderSettings` | src/cctrlserver.cc:221-242 | an order sets the scale or the loss flag if that is what it is for, and leaves them alone otherwise; such an order changes nothing else |
| `RelayOrders.OrderMoves` | src/cctrlserver.cc:152-171 | "set" changes the clients as `RegistryLaws.MovesFirst` says, and nothing else of the server |
| `RelayOrders.OrderRenames` | src/cctrlserver.cc:193-218 | "setname" concerns the clients if one has the CID, connected or archived; else the first connected spy that has it; else nobody |
| `RelayOrders.VisitSettings` | src/vwifi-server.cc:47-84 | a visit leaves the settings alone |
| `RelayOrders.RunSettings` | src/cctrlserver.cc:376-384 | over every run the scale and the loss flag are those of the last order read that sets them |
| `RelayOrders.ServerSettings` | src/cctrlserver.cc:376-384 | so over every run of the server, the scale being 1 before any |
| `RelayOrders.AdmitPlace` | src/cwifiserver.cc:132-155 | the new entry of an accept in any state of the server is placed and named as `RegistryLaws.AcceptPlace` says |
| `RelayOrders.ServerForgetsBroken` | src/cwifiserver.cc:116-144 | after any run, a client all of whose entries are disabled, with nothing archived, is accepted at the origin without a name |
| `RelayTheorems.CloseAllLeavesMasters` | src/cctrlserver.cc:386-404 | the order to close all clients leaves exactly the listening descriptors registered |
| `RelayTwoEnabled.ForwardQuiet` | src/vwifi-server.cc:47-56 | with no entry ready, ForwardData closes the disabled entries and does nothing else |
| `RelayTwoEnabled.ServerTwoEnabled` | src/cwifiserver.cc:144-171 | a client accepted in three turns of the server, its earlier connections being open, has two enabled entries |
| `WifiServers.WifiServer.RecoverArchived` | src/cwifiserver.cc:93-109 | the first record of the CID is returned and erased, nothing else moves |
| `WifiServers.WifiServer.RecoverConnected` | src/cwifiserver.cc:111-130 | the first enabled entry of the CID is returned and disabled, although the lists are not aligned then |
| `WifiServers.WifiServer.Accept` | src/cwifiserver.cc:132-155 | the lists become those of the specification, aligned again |
| `WifiServers.WifiServer.AddInfoWifiDeconnected` | src/cwifiserver.cc:263-269 | the queue becomes that of the specification |
| `WifiServers.WifiServer.CloseClient` | src/cwifiserver.cc:164-174 | socket and info at the index are erased, the info is queued, the descriptor closed if it was enabled |
| `WifiServers.WifiServer.CloseAllClient` | src/cwifiserver.cc:176-183 | the loop over position 0 is the specification |
| `WifiServers.WifiServer.IndexOfCid` | src/cwifiserver.cc:234-243 | the first connected info of the CID, or none |
| `WifiServers.WifiServer.IndexOfArchivedCid` | src/cwifiserver.cc:245-254 | the first archived record of the CID, or none |
| `WifiServers.WifiServer.SendAllOtherClients` | src/cwifiserver.cc:195-213 | the loop performs the attenuated cast of the specification on flags, channels and draws |
| `WifiServers.WifiServer.SendAllWithoutLoss` | src/cwifiserver.cc:215-232 | the loop performs the cast at the original power |
| `RelayServers.RelayServer.RemoveClient` | src/vwifi-server.cc:27-40 | lists, descriptors and scheduler change together as specified |
| `RelayServers.RelayServer.ForwardData` | src/vwifi-server.cc:42-85 | the loop with its index that stays put after an erasure is the specification; it terminates |
| `RelayServers.RelayServer.ChangeCoordinate` | src/cctrlserver.cc:137-172 | one client, one archived record or one new record is placed; CIDs below 3 are ignored |
| `RelayServers.RelayServer.SetName` | src/cctrlserver.cc:174-219 | one client, one archived record or one spy is renamed, the name cut to 12 characters |
| `RelayServers.RelayServer.CloseEverything` | src/cctrlserver.cc:386-404 | nodes first, then clients, of both sides, as specified |
| `RelayServers.RelayServer.ReceiveOrder` | src/cctrlserver.cc:406-455 | each order has its specified effect |
| `RelayServers.RelayServer.Turn` | src/vwifi-server.cc:156-229 | one turn of the loop is one step of the specification |
| `RelayServers.RelayServer.Loop` | src/vwifi-server.cc:156-229 | the loop is a run of the specification |
| `RelayServers.Serve` | src/vwifi-server.cc:148-229 | whatever the environment does, the server that was built and has looped satisfies the invariant and is in the state of the run |
| `Shutdown.CountKept` | src/cthread.cc:101-140 | every step keeps the counter equal to the number of tasks that have not run dead() |
| `Shutdown.CountExactly` | src/ckernelwifi.cc:578-580 | a step keeps it equal to the number of tasks still at work if and only if it is not the exit of the monitor without dead() |
| `Shutdown.StepKeeps` | src/cthread.cc:107-140 | every step of every interleaving, that exit included, keeps counter, flags, mutex and wake-up in order |
| `Shutdown.Safety` | src/ckernelwifi.cc:829-864 | in every interleaving, whether the driver stays loaded or not, stop passes its wait only when every task has run dead(), and is not asleep once they all have |
| `Shutdown.InterruptsAll` | src/ckernelwifi.cc:849-858 | in every interleaving stop interrupts the tasks in order and can always go on to the next; after the n-th every flag is set and it goes to its lock |
| `Shutdown.NeverStuck` | src/ckernelwifi.cc:849-859 | until stop has returned, its interrupting included, and unless a task left without dead(), some step other than a spurious wake-up is possible: no lost wake-up, no deadlock |
| `Shutdown.ReturnsExactly` | src/ckernelwifi.cc:829-864 | where a run from the beginning cannot go on, stop has returned if and only if no task left without dead() |
| `Shutdown.SpuriousHarmless` | src/ckernelwifi.cc:859-859 | a spurious wake-up while tasks are left leads back to sleep |
| `Shutdown.Terminates` | src/ckernelwifi.cc:849-864 | once every flag is set, runs without spurious wake-ups are bounded in length |
| `Shutdown.Hangs` | src/ckernelwifi.cc:571-581 | once a task has left without dead(), no continuation gets stop past its wait |
| `Shutdown.MonitorHangs` | src/ckernelwifi.cc:571-581 | so stop never returns after the monitor of the five tasks found the driver unloaded and init() failed |
| `ControlList.SendList` | src/cctrlserver.cc:90-135 | the loops write, for each list, its whole count and the records of its enabled entries |
| `ControlList.AskList` | src/vwifi-ctrl.cc:106-176 | the loops read as the specification does, errors and short reads at the end of the stream included |
| `ControlList.FetchLaw` | src/csocket.cc:53-60 | a read fails only on an ended stream, and otherwise takes what is there of what it asks for |
| `ControlList.RecordLayout` | src/cctrlserver.cc:54-88 | a record on the wire is the CID, the three coordinates, the length of the name, and the name with its NUL unless it is empty |
| `ControlList.ListingLayout` | src/cctrlserver.cc:98-101 | a list on the wire begins with the number of all its entries |
| `ControlList.CStringLaw` | src/vwifi-ctrl.cc:100-101 | a name is read up to its first NUL |
| `ControlList.GetRecordExact` | src/vwifi-ctrl.cc:51-104 | a record whose fixed part is there is accepted if and only if the length of the name is at most 12 and, when positive, the stream goes on; what was known before is replaced only then |
| `ControlList.RecordRoundTrip` | src/cctrlserver.cc:54-88 | GetCInfoWifi reads back what SendCInfoWifi wrote, in front of any bytes |
| `ControlList.RecordsRead` | src/vwifi-ctrl.cc:139-151 | a sequence of records is read back record by record, whatever follows it |
| `ControlList.ReaderReads` | src/vwifi-ctrl.cc:51-104 | GetCInfoWifi reads every record that can be written, and nothing from an ended stream |
| `ControlList.ListExact` | src/vwifi-ctrl.cc:106-176 | of any two lists are read: the enabled spies, a record out of the bytes of the clients for each disabled spy, the clients out of the rest |
| `ControlList.ListOfClients` | src/vwifi-ctrl.cc:162-171 | with no disabled spy are read: all spies, the enabled clients, the last record again for each disabled client |
| `ControlList.ClientsRight` | src/vwifi-ctrl.cc:162-171 | whatever the CIDs, this is the list of clients if and only if every client from the first disabled one on has the record that is read last |
| `ControlList.TakeOverSettled` | src/cwifiserver.cc:111-155 | of a taken-over entry followed by the new one this holds if and only if they have the same record |
| `ControlList.ListRoundTrip` | src/vwifi-ctrl.cc:106-176 | with every entry enabled are read: exactly the spies, then exactly the clients, in order |
| `ControlList.SpyMisread` | src/cctrlserver.cc:98-114 | spies of distinct CIDs at the origin are never read back right when one of them is disabled |
| `ControlList.ListRightExactly` | src/cctrlserver.cc:90-135 | for distinct spies at the origin and any clients the answer is read back right if and only if no spy is disabled and every client from the first disabled one on has the record that is read last |
| `ControlList.DisabledMisread` | src/cctrlserver.cc:98-120 | with one disabled spy and no client the client program fails |
| `RelayListing.RunTidy` | src/cinfowifi.cc:28-34 | in every run every name is at most 12 characters long without NUL, and every spy is at the origin |
| `RelayListing.ServerIsListed` | src/cctrlserver.cc:90-135 | in every turn of every run, if no entry is disabled when the order arrives, the list is read back exactly |
| `RelayListing.ServerListedExactly` | src/vwifi-server.cc:168-222 | in every turn of every run in which no spy is taken over, whatever becomes of the clients, the list is read back right if and only if this holds after the accepts of the turn |

## Left out

- Creating, binding, listening on and connecting sockets, `getsockname` and `ioctl`: system calls; only what accept, recv, send, close and pselect may do is modelled.
- Netlink, nl80211 and `GetFrequency`: the frequency is any function of the message.
- The rest of `vwifi-client`, and its own use of `CSelect`, whose nodes are only ever added.
- Destructors, copies and assignments of the server classes; command-line parsing, help, displays, scripts and the other tools.
- The exact floating-point values of `log10` and `sqrt`: they are any monotone logarithm and any square root over the reals; integer parts and truncation are exact.
- `FD_SETSIZE`, EINTR and a failing `Wait`: the descriptors are any naturals and waiting succeeds.
- A failing accept on a listening socket, which ends the process, and the assertion on reserved CIDs in `CInfoWifi::SetCid`, which aborts it.
- The control connection itself: its descriptor is opened and closed inside one order, and orders arrive already read; the read-only orders `status`, `show` and `distance` change nothing and are one case, `Ask`.
- The 32-bit index of the lists: list lengths are naturals, below 2^32 where they are written to a stream. Host byte order is little-endian.
- A build without VHOST: its listening descriptor is always there, and is never ready in such a build.
- `SetName` on a buffer without NUL: the name of an order is a C string.
- ControlList.AskList: a read takes whatever the stream still holds of what it asks for; recv returning less although more is there is not modelled.
- ControlList.ListRightExactly: is about what vwifi-ctrl reads; of a spy it prints the CID and the name only, and that line may be right where the coordinate read with it is not. CIDs are not zero, which no peer address gives. The CIDs of the spies differ; with two equal ones a disabled spy may be read right out of the bytes of the clients by chance.
- ControlList.DisabledMisread: one family of inputs, as an example; `ControlList.SpyMisread` is about all.
- Shutdown.Safety: begins when startup is finished and every task is counted; the early returns of `stop` before that are not modelled.
- WifiServers.WifiServer.SendAllWithoutLoss: one method for two of the source, which differ in the skipped index only.

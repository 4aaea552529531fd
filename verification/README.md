# Verified models of tailcat

tailcat joins two machines over an encrypted tunnel: a native runtime and a browser engine carry TCP and UDP,
find direct paths, serve files over SFTP, measure throughput and print compact addresses. This project models
the stateful cores of that program in Dafny and proves what they promise over every run or every input.

| area | modules |
|---|---|
| TCP links of the runtime actor | `Tcp` (the socket contract), `LinkPump`, `LinkActor`, `TcpEndToEnd`, `TcpProgress`, `Slots` |
| discovery of direct paths | `Candidates`, `Discovery`, `DiscoveryActor`, `DiscoveryProbes` |
| throughput test | `PerfProtocol`, `PerfAccounting`, `PerfReceive`, `PerfSend` |
| SFTP policy | `Paths`, `FileSystem`, `FilesPolicy`, `FilesSafety`, `FilesBlindness`, `FilesHandles`, `FilesSession`, `FilesAnswers`, `Listings` |
| reusable identities | `BrowserEngine`, `BrowserIdentity`, `BrowserReads`, `BrowserActor`, `BrowserAnswers`, `UdpFlows`, `UdpOutcomes`, `UdpPackets`, `UdpActor` |
| printers and parsers | `Cbor`, `Utf8Texts`, `Base64Url`, `Address`, `AddressFields`, `Frames`, `ProxyCommand`, `ServePorts`, `ServeTexts`, `Numbers`, `Texts` |
| local relay | `RelayRegistry` |
| shared types | `Common`, `Endpoints` |

`dafny verify dfyconfig.toml` checks the whole project.

## How the models are built

- A core that updates its fields in place is a class whose methods are proved equal to a step function
  (`View()` after a call is the function of `View()` before it). Theorems over runs are lemmas about that function.
- Concurrency, clocks, randomness and the network are inputs: a run is any sequence of events, a random value is
  an argument, and a clock reading is a number. Encryption is ideal: a packet that opens was sealed by its peer.
- A byte stream is its whole history and a cursor, so "prefix of what was written" is a statement about values.
  Fields that only record history, and that the program does not keep, say so where they are declared.
- Where a promise has a condition, it is stated exactly and the failing input is given: a dialed flow may repeat
  (`LinkActor.DialedFlowsCollide`, `LinkActor.DialTwice`), a read pending after a full close in the browser can skip
  octets (`BrowserReads.ReadsAreExactUnlessDiscarded`, `BrowserReads.ReadPastGap`), intervals of a throughput test
  can miss bytes (`PerfAccounting.IntervalsSumToTotal`, `PerfAccounting.LateTransfersHaveNone`; and on a clock that
  went back, `PerfAccounting.SteppingBackLoses`), resets truncate a stream whose FIN has not arrived
  (`TcpEndToEnd.EofIsComplete`, `TcpEndToEnd.ResetTruncates`), IPv4-mapped addresses are not advertised faithfully
  (`Candidates.AdvertisedIsStored`), and an address text past the size bound is refused (`Address.ParseInvertsEncode`).
- `Cbor.KnownEncodings` and `Base64Url.KnownEncodings` are sanity checks against published vectors.

## Model

| member | source | states |
|---|---|---|
| `LinkPump.PumpKeepsLinkInv` | src/runtime.rs:1068-1148 | one polling iteration keeps the link invariant: octets only move forward, each FIN follows its octets, and a socket closed without an abort has passed both FINs |
| `LinkPump.PumpOutKeepsLinkInv` | src/runtime.rs:1101-1118 | moving up to 16 KiB from pipe to socket, or closing on the end of the pipe, keeps the link invariant |
| `LinkPump.PumpInKeepsLinkInv` | src/runtime.rs:1119-1131 | moving received octets to the pipe, or discarding them for a reader that left, keeps the link invariant |
| `LinkPump.PassEofKeepsLinkInv` | src/runtime.rs:1132-1138 | end of the received stream is passed on only after all of it, and keeps the link invariant |
| `LinkPump.NetKeepsLinkInv` | src/runtime.rs:986-990 | whatever the TCP stack delivers keeps the link invariant |
| `LinkPump.AppKeepsLinkInv` | src/runtime.rs:686-697 | whatever the application does with its end of the pipe keeps the link invariant |
| `LinkPump.PumpRetires` | src/runtime.rs:1142-1147 | one iteration retires the link exactly when it leaves the socket closed and nothing received waits for an application still reading |
| `LinkPump.PumpHandsOver` | src/runtime.rs:1070-1086 | the application's end of the pipe is handed over once, when the handshake is over: to the dialer, else to the handler, and if neither takes it the pipe is dropped |
| `LinkPump.PumpAborts` | src/runtime.rs:1087-1100 | one iteration aborts a socket exactly if its dialer has left, or its handshake is not over more than twenty seconds after the start |
| `LinkPump.PumpOutIsExact` | src/runtime.rs:1101-1118 | what one iteration takes from the pipe is its next octets, as many as wait, fit the socket and are within 16 KiB |
| `LinkPump.PumpInIsExact` | src/runtime.rs:1119-1131 | what one iteration takes from the socket is its next octets, into the pipe as far as there is room, or all of them for a reader that left |
| `LinkActor.SwapRemoveMultiset` | src/runtime.rs:1149-1152 | swap_remove takes exactly one element out |
| `LinkActor.SwapRemoveHandles` | src/runtime.rs:1149-1152 | after swap_remove of a link exactly its handle is gone and handles stay distinct |
| `LinkActor.KeptExactly` | src/runtime.rs:1142-1152 | the links kept are exactly the polled ones not retired |
| `LinkActor.QuietMeansAcknowledged` | src/runtime.rs:1051-1057 | a socket that satisfies a drain, unless aborted, had every octet the application wrote and its FIN acknowledged |
| `LinkActor.RetiredLeavesNothingUnread` | src/runtime.rs:1139-1147 | a link retires only when nothing received is left for an application still reading |
| `LinkActor.Actor.constructor` | src/runtime.rs:482-560 | the actor starts with no links, and its port counter at 32768 |
| `LinkActor.Actor.AddLink` | src/runtime.rs:687-699 | a new link gets a fresh slot; links and sockets stay in bijection |
| `LinkActor.Actor.Dial` | src/runtime.rs:672-700 | which of the four outcomes a dial has, what it adds, the wrapping port counter, and from what a caller can see before it exactly when the new flow is fresh: no live link to that target was dialed a multiple of 32768 counter steps ago |
| `LinkActor.DialedFlowsCollide` | src/runtime.rs:680-700 | two live dialed links share a flow if and only if they were dialed to one target a multiple of 32768 counter steps apart |
| `LinkActor.RecentDialsAreDistinct` | src/runtime.rs:680-700 | while no live link is more than 32768 steps old, the flows of a client are pairwise distinct |
| `LinkActor.NextDialIsFresh` | src/runtime.rs:680-700 | the next dial takes a free flow if and only if no live link to its target is a multiple of 32768 steps old |
| `LinkActor.DialTwice` | src/runtime.rs:679-700 | a dialed flow does repeat: one link that stays up, 32767 dials that fail to connect, and a second dial to its target leave two links with equal flows |
| `LinkActor.Actor.ReceiveSyn` | src/runtime.rs:921-966 | a SYN makes one link exactly when its flow is new, there is room and someone serves it; flows of a server stay pairwise distinct |
| `LinkActor.Actor.Deliver` | src/runtime.rs:988-990 | a delivery changes one socket and keeps the table valid |
| `LinkActor.Actor.AppActs` | src/runtime.rs:686-697 | an application changes its own pipe only |
| `LinkActor.Actor.PassApp` | src/runtime.rs:1070-1100 | equals `HandOver` then `GiveUp`: the pipe is handed over once, at establishment; a dialer that left, or a handshake over twenty seconds, aborts |
| `LinkActor.Actor.MoveOut` | src/runtime.rs:1101-1118 | equals `PumpOut`: octets leave the pipe in order, at most 16 KiB, and only an exhausted, finished pipe closes the socket |
| `LinkActor.Actor.MoveIn` | src/runtime.rs:1119-1131 | equals `PumpIn`: octets enter the pipe in order as room allows; for a reader that left they are discarded |
| `LinkActor.Actor.PollOne` | src/runtime.rs:1068-1148 | one whole iteration equals the function the invariant is proved about, and a link that stays has no closed socket with nothing left to read |
| `LinkActor.Actor.PumpLinks` | src/runtime.rs:1068-1148 | the loop polls every link once and lists, ascending, exactly the finished ones |
| `LinkActor.Actor.RetireLinks` | src/runtime.rs:1149-1152 | descending swap_remove deletes exactly the listed links and their sockets |
| `LinkActor.Actor.PollLinks` | src/runtime.rs:1065-1153 | afterwards no link is left whose socket is closed with nothing received unread or its reader gone; every other link keeps its own socket, the table stays valid and flows distinct |
| `LinkActor.Actor.AnswerDrains` | src/runtime.rs:1051-1063 | drains are answered all or none; an answer means every link not aborted is fully acknowledged, and a refusal means some link is not quiet or packets wait |
| `TcpEndToEnd.Reachable` | src/runtime.rs:1065-1153 | two actors joined by reliable TCP: the joint invariant holds in every run |
| `TcpEndToEnd.PrefixDelivery` | src/runtime.rs:1101-1131 | under every interleaving, what each application has read is a prefix of what the other wrote |
| `TcpEndToEnd.EofIsComplete` | src/runtime.rs:1132-1148 | an application whose socket has received the FIN reads end-of-file only after every octet and the end of the other writer, even if a reset follows; without the FIN, end-of-file means its own socket was aborted or reset |
| `TcpEndToEnd.QuietEndDelivered` | src/runtime.rs:1051-1063 | what a drain waits for means, end to end, that the peer holds every octet and the FIN |
| `TcpEndToEnd.ResetTruncates` | src/runtime.rs:1142-1152 | why the condition is needed: a run in which a reset ends the stream with an octet undelivered |
| `TcpEndToEnd.RemovedLinkLeftNothing` | src/runtime.rs:1139-1152 | in every run a removed link left nothing unread for a reading application |
| `TcpEndToEnd.TickRemovesFinished` | src/runtime.rs:1142-1152 | a polling removes a link exactly if it leaves the socket closed with nothing received unread, or for a reader that is gone |
| `TcpEndToEnd.FinishedLinkIsRemoved` | src/runtime.rs:1139-1152 | so after any run a link whose socket a polling leaves closed, with nothing left for its application, is gone after that polling |
| `TcpProgress.RunOnward` | src/runtime.rs:1068-1148 | no schedule of polling, deliveries, timers, reads and whatever the other direction does ever undoes a step: nothing is left to do afterwards that was not before |
| `TcpProgress.SomethingHelps` | src/runtime.rs:1101-1138 | while anything is missing, some kind of event (polling, delivery, acknowledgement or read) is possible and moves the stream on |
| `TcpProgress.HelpMoves` | src/runtime.rs:1101-1138 | any enabled event of such a kind, whatever number of octets it moves, leaves strictly less to do |
| `TcpProgress.FairSchedulesDeliver` | src/runtime.rs:1101-1148 | under every fair schedule, with segments and reads of any size, in any order and among any other such events, everything written arrives after as many rounds as there was left to do, and the end of it too; a round gives each kind of event its turn unless none of the kind could do anything |
| `TcpProgress.NeverStuck` | src/runtime.rs:1101-1148 | closing one direction never stops the other: from every reachable state there is a schedule of polling, deliveries and reads that brings everything, and the end |
| `Candidates.RememberEndpoint` | src/runtime.rs:1371-1381 | an endpoint is refused if unusable or known, else appended, dropping the oldest of 32 |
| `Candidates.UsableIpv4` | src/runtime.rs:1355-1367 | which IPv4 endpoints can be used |
| `Candidates.UsableIpv6` | src/runtime.rs:1355-1367 | which IPv6 endpoints can be used; `Candidates.UsableMapped` says that an IPv4-mapped one is judged as its IPv4 address |
| `Candidates.RememberKeepsRecent` | src/runtime.rs:1371-1381 | a list stays distinct, usable and at most 32 long |
| `Candidates.RememberAllIsLatest` | src/runtime.rs:1371-1381 | after any offers the list is exactly the last 32 taken |
| `Candidates.RememberAllKeepsRecent` | src/runtime.rs:1252-1258 | any list of announced endpoints is stored distinct, usable and bounded |
| `Candidates.EndpointsRoundTrip` | src/runtime.rs:1156-1160 | decoding an advertisement gives its endpoints with IPv4-mapped addresses unmapped |
| `Candidates.StoreEndpoints` | src/runtime.rs:1245-1258 | equals `Stored`: at most 32 announced endpoints, each remembered in turn, so the result is `Recent` |
| `Candidates.AdvertisedIsStored` | src/runtime.rs:1245-1259 | what one peer advertises is what the other stores, in order, if and only if no address is an IPv4-mapped IPv6 address |
| `Discovery.StepKeepsInv` | src/runtime.rs:1173-1262 | every input keeps the discovery invariant |
| `Discovery.RunKeepsInv` | src/runtime.rs:1173-1262 | the invariant holds after any inputs |
| `Discovery.DirectPathIsProven` | src/runtime.rs:1189-1235 | after any inputs a direct endpoint is usable and was set by the latest input that is a pong sealed by that peer, from exactly that endpoint, under ten seconds after an earlier input made this actor probe that peer there, at a candidate of the peer, under the transaction id the pong repeats |
| `Discovery.DirectIffProven` | src/runtime.rs:1189-1235 | a peer has a direct endpoint if and only if some input was such a pong |
| `Discovery.StepDirect` | src/runtime.rs:1189-1262 | an input makes an endpoint direct exactly if it proves the path to it, and no input changes the discovery key of a peer |
| `Discovery.ProbeWasSent` | src/runtime.rs:1154-1188 | every outstanding probe was sent by an earlier input, at its time, under a transaction id drawn then, to a usable candidate of its peer |
| `Discovery.ProbePromotesOnce` | src/runtime.rs:1225-1235 | no two pongs of a run prove a path by one probe, even when transaction ids repeat |
| `Discovery.TablesAreBounded` | src/runtime.rs:570-597 | probes, pings and peers stay within 4096, 128 and 1024; candidates are distinct, usable and at most 32 |
| `Discovery.DirectPacketsFollowProof` | src/runtime.rs:975-985 | a packet leaves directly only towards the source of the latest pong of its peer that proves a path, less than fifteen seconds old |
| `Discovery.HonestPongPromotes` | src/runtime.rs:1203-1235 | the two ends of a probe fit: what a peer replies to it, wherever it saw it come from, comes back as the pong that makes the probed endpoint direct |
| `Discovery.AnswersTheFirst` | src/runtime.rs:1236-1243 | a pong answers the first ping that waits for its transaction id, and only that one stops waiting |
| `DiscoveryProbes.ListIsProbed` | src/runtime.rs:1245-1261 | with new transaction ids and room, every usable endpoint among the first 32 of an opened list becomes a candidate and afterwards has its probe outstanding |
| `DiscoveryProbes.PingSourceIsProbed` | src/runtime.rs:1218-1223 | the source of an opened ping becomes a candidate, and a new one afterwards has its probe outstanding |
| `DiscoveryProbes.CandidatesAreProbed` | src/runtime.rs:1154-1172 | after an advertisement every candidate of every peer visited has its probe outstanding |
| `DiscoveryProbes.DirectPingProbes` | src/runtime.rs:707-730 | after a direct ping that is taken the ping waits and every candidate has its probe outstanding |
| `DiscoveryProbes.PeersMeet` | src/runtime.rs:1154-1262 | a run from the empty actor that ends with a direct path: a peer joins, announces one usable endpoint and answers the probe within ten seconds |
| `DiscoveryProbes.DirectPingIsAnswered` | src/runtime.rs:776-796 | the frame of a direct ping opens at the server, whose pong answers exactly that ping |
| `DiscoveryProbes.PongEndsOnePing` | src/runtime.rs:1236-1243 | an opened pong takes away the first waiting ping with its transaction id and no other, whether or not it proves a path |
| `DiscoveryProbes.PongTellsSource` | src/runtime.rs:1203-1211 | the pong decodes to the endpoint the ping was seen at |
| `Discovery.TakePongKeepsInv` | src/runtime.rs:1225-1244 | a pong keeps the invariant whether or not it proves a path |
| `Discovery.TakePacketKeepsInv` | src/runtime.rs:1189-1262 | any discovery packet, authentic or not, keeps the invariant |
| `DiscoveryActor.Actor.AddPeer` | src/runtime.rs:570-597 | a peer is added unless known, the table is full or a key is zero |
| `DiscoveryActor.Actor.Probe` | src/runtime.rs:1173-1188 | a probe is recorded only for a usable endpoint of a known peer, within 4096 |
| `DiscoveryActor.Actor.ProbeEach` | src/runtime.rs:1167-1170 | every candidate is probed in turn |
| `DiscoveryActor.Actor.TakePing` | src/runtime.rs:1203-1224 | a ping is answered with its transaction id and the source it was seen at; a UDP source becomes a candidate and is probed, and nothing more is trusted |
| `DiscoveryActor.Actor.PromoteEndpoint` | src/runtime.rs:1232-1234 | the probe is spent in the same step that makes its endpoint direct, so it cannot promote again |
| `DiscoveryActor.Actor.TakePongPacket` | src/runtime.rs:1225-1244 | only a pong for an outstanding probe of this peer and endpoint promotes |
| `DiscoveryActor.Actor.TakeEndpoints` | src/runtime.rs:1245-1262 | an announced list replaces the candidates and each is probed |
| `DiscoveryActor.Actor.DiscoPacket` | src/runtime.rs:1189-1262 | equals `TakePacket`, with the pong that goes back and the ping that is answered; unauthentic, unknown, short or unusable packets change nothing |
| `DiscoveryActor.Actor.Advertise` | src/runtime.rs:1154-1172 | the payload is the encoding of the own endpoints, and every candidate is probed |
| `DiscoveryActor.Actor.LearnEndpoint` | src/runtime.rs:1267-1304 | an endpoint learned from STUN is remembered |
| `DiscoveryActor.Actor.StartPingCommand` | src/runtime.rs:707-730 | equals `PingCommand`: at most 128 pings wait, abandoned ones are dropped first, the ping is sent and a direct one advertises |
| `DiscoveryActor.Actor.SendPing` | src/runtime.rs:776-796 | without a server nothing is sent and the ping keeps its time; a direct ping goes to the server as a discovery packet, any other through the relay |
| `DiscoveryActor.Actor.RefreshPings` | src/runtime.rs:1030-1043 | pings are dropped after ten seconds or when abandoned, and each second sent again, in order, by an actor that has a server |
| `DiscoveryActor.Actor.FireTimers` | src/runtime.rs:1030-1046 | probes live ten seconds and pings are refreshed; the invariant is kept |
| `PerfAccounting.Count` | src/perf.rs:304-315 | equals `Counted`, the step `IntervalsAreExact` and `IntervalsSumToTotal` are about |
| `PerfAccounting.IntervalsAreExact` | src/perf.rs:304-315 | under a monotone clock each interval holds exactly the transfers of its slot |
| `PerfAccounting.DatagramsAreCounted` | src/perf.rs:304-315 | datagrams are counted one by one over UDP and not at all over TCP, in total and in each slot |
| `PerfAccounting.IntervalsSumToTotal` | src/perf.rs:304-315 | for any transfers and any clock: interval bytes add up to the total if and only if every transfer with bytes is in slot 6000 or earlier and followed by none in an earlier slot; on a clock that never goes back exactly the bytes of slots past 6000 are missing |
| `PerfAccounting.SlotsHoldKept` | src/perf.rs:304-315 | whatever the clock does, the slots below any bound hold the bytes of the transfers that no later transfer in an earlier slot follows |
| `PerfAccounting.SteppingBackLoses` | src/perf.rs:308-313 | why the clock must not go back: the second of two transfers, dated an interval earlier, cuts the first off |
| `PerfAccounting.LateTransfersHaveNone` | src/perf.rs:308-313 | a transfer 600.1 seconds into a test with intervals of 100 ms has no interval |
| `PerfAccounting.Combine` | src/perf.rs:431-449 | equals `Combined`, which `CombineConserves` shows to conserve totals |
| `PerfAccounting.CombineConserves` | src/perf.rs:431-449 | combining keeps totals and each interval, and takes the longest duration |
| `PerfSend.SendData` | src/perf.rs:317-367 | sending terminates; with a byte target TCP sends exactly it and UDP the least multiple of the length reaching it, without one it stops at the duration; UDP datagrams are numbered in order and followed by three that end the test, TCP is shut down |
| `PerfSend.ReceivedOfSent` | src/perf.rs:317-430 | whatever the network does, the receiver counts whole datagrams up to the first that ends the test; if it only loses none is late and no more are counted than sent, and if it loses none both sides count the same |
| `PerfReceive.ReceiveUdp` | src/perf.rs:368-430 | received bytes and datagrams are those of this test before its end; a datagram counts as reordered exactly when one with its number or a higher one came before |
| `PerfReceive.InOrderIsNeverLate` | src/perf.rs:409-414 | datagrams in sending order are never late, whichever are lost |
| `PerfReceive.CopiesAreLate` | src/perf.rs:409-414 | a second copy is always late |
| `PerfReceive.OthersDoNotCount` | src/perf.rs:400-408 | datagrams of another test change nothing |
| `PerfProtocol.StepKeepsInv` | src/perf.rs:532-572 | every step of the two peers keeps the channel invariant |
| `PerfProtocol.RunKeepsInv` | src/perf.rs:532-572 | the invariant holds in every run |
| `PerfProtocol.LeavingIsSafe` | src/perf.rs:547-551 | a peer leaves only when all the other still needs is in its inbox |
| `PerfProtocol.NeverReadsEof` | src/perf.rs:555-561 | a peer still in its loop never finds the control channel ended |
| `PerfProtocol.FinishedPeersAgree` | src/perf.rs:532-588 | when both have left, each reports the combination of the results of all its stream tasks and that of the other, intervals aside, one result for each stream of the direction |
| `PerfProtocol.RunKeepsTotals` | src/perf.rs:532-562 | every result a task ends with is counted once, in order, in the totals of its side, and what is announced combines them all |
| `PerfProtocol.RunsAreBounded` | src/perf.rs:532-572 | no run is longer than its initial work plus three steps for each ping |
| `PerfProtocol.NeverDeadlocks` | src/perf.rs:532-572 | until both have left some task can end or some message be read |
| `PerfProtocol.ReportsFollowDirection` | src/perf.rs:532-588 | when both peers have left, an upload reports the client as sender and the server as receiver only, a download the reverse, and both directions all four |
| `PerfProtocol.TasksFollowDirection` | src/perf.rs:71-73 | an upload starts with sending streams on the client and receiving ones on the server, a download the reverse, and both directions with both on each side |
| `PerfProtocol.PingsAreAnswered` | src/perf.rs:555-562 | only the client pings, one ping at a time; the server answers each with its stamp, any pong ends the wait, and only one with the stamp waited for counts |
| `PerfProtocol.TurnKeepsInv` | src/perf.rs:533-571 | one turn of one loop, top to selection, keeps both channels consistent |
| `PerfProtocol.Loop.PassTop` | src/perf.rs:533-551 | equals `Top`: done, result and leaving in this order, each announced once |
| `PerfProtocol.Loop.Select` | src/perf.rs:552-562 | equals `OnHappening`: what each message or ended task sets and sends |
| `PerfProtocol.Loop.Iterate` | src/perf.rs:532-572 | equals `Turn`, the step of the protocol theorems |
| `PerfProtocol.Loop.constructor` | src/perf.rs:518-526 | equals `Begin`: one sending task for each stream on the client of an upload, the server of a download and either side of both, and the receiving tasks opposite |
| `Paths.Relative` | src/services/files.rs:102-125 | equals `Clean`: components are pushed and popped at the virtual root, and only a NUL is an error |
| `Paths.CleanIsPlain` | src/services/files.rs:102-125 | a cleaned path has only plain names, so nothing in it climbs out of the directory; only a NUL is refused |
| `Paths.CleanOfJoin` | src/services/files.rs:595-611 | cleaning the slash form of a clean path gives it back |
| `Paths.CleanNameByName` | src/services/files.rs:102-125 | for any text without NUL: appending "/.." drops the last name or stays at the root, appending a plain name adds it, and "/" and "/." add nothing |
| `FileSystem.ResolveStable` | src/services/files.rs:286-293 | a path that resolved keeps its meaning while old nodes are kept and directories only gain entries |
| `FileSystem.CreateAdds` | src/services/files.rs:278-293 | an exclusive creation changes nothing that was there, and its path then names the created node |
| `FileSystem.ResolveThen` | src/services/files.rs:286-293 | one more name below a resolved directory is found by the longer path, links in it followed |
| `FilesSafety.OpenKeeps` | src/services/files.rs:312-362 | an open in a write-only mode keeps the session invariant |
| `FilesSafety.MkDirKeeps` | src/services/files.rs:612-641 | a MkDir in `wo+` keeps the invariant |
| `FilesSafety.SetStatKeeps` | src/services/files.rs:399-461 | attributes are set on created nodes only |
| `FilesSafety.HandlesKeep` | src/services/files.rs:531-580 | writing and setting attributes through handles touches created files only |
| `FilesSafety.UniqueIsPlain` | src/services/files.rs:154-169 | a unique name is a plain name beside the requested one |
| `FilesSafety.StepKeepsInv` | src/services/files.rs:477-732 | every request keeps the invariant |
| `FilesSafety.RunKeepsInv` | src/services/files.rs:477-732 | the invariant holds after any requests |
| `FilesSafety.DropBoxKeepsEverything` | src/services/files.rs:477-732 | in `wo` and `wo+`, after any requests, every old file and link is unchanged and every old directory has its attributes and at most new entries for created nodes; every handle and every remembered target is a created node |
| `FilesSafety.PathsKeepTheirMeaning` | src/services/files.rs:312-362 | every path that named something before the session names the same thing, kept, after it |
| `FilesSafety.DropBoxTellsNothing` | src/services/files.rs:510-594 | no reply in the write-only modes is data, a listing or a link target |
| `FilesSafety.ReadOnlyStep` | src/services/files.rs:477-732 | no request in `ro` changes the directory |
| `FilesSafety.ReadOnlyChangesNothing` | src/services/files.rs:477-732 | in `ro` mode the directory never changes |
| `FilesBlindness.StatAlike` | src/services/files.rs:262-276 | stat and lstat answer alike over both directories |
| `FilesBlindness.OpenAlike` | src/services/files.rs:325-350 | opens answer alike over both directories |
| `FilesBlindness.StepAlike` | src/services/files.rs:477-732 | any request keeps two such sessions indistinguishable |
| `FilesBlindness.DropBoxIsBlind` | src/services/files.rs:262-276 | in `wo` mode the whole reply sequence is the same over any two directories, root attributes blurred to "is a directory", if drawn names collide in neither |
| `FilesBlindness.RepliesAreTheAnswers` | src/services/files.rs:471-476 | the replies compared are those of the run, one to each request in order, but for the attributes of a directory |
| `FilesHandles.HandlesAreNeverReused` | src/services/files.rs:364-369 | a closed handle is never live again and a live one never changes what it refers to |
| `FilesHandles.UploadIsRemembered` | src/services/files.rs:325-361 | after a write-only open the name and the handle stand for the same new empty file, and stat of the name reports it |
| `FilesHandles.SetNodeSets` | src/services/files.rs:762-815 | which attributes are on the node after a successful set, permissions cut to nine bits |
| `FilesHandles.SetStatIsReported` | src/services/files.rs:399-461 | attributes set through a path are those then reported for it |
| `FilesAnswers.ResolveIsWalk` | src/services/files.rs:286-293 | without links a lookup finds exactly what the names of the path lead to, one entry after another, or reports it missing |
| `FilesAnswers.ResolveStaysInside` | src/services/files.rs:286-293 | whatever links and ".." it meets, every directory on the way of a lookup is an entry of the one before it, from the shared root down |
| `FilesAnswers.LoopFails` | src/services/files.rs:286-293 | a link to itself is followed forty times and then is an error |
| `FilesAnswers.BarredIsDenied` | src/services/files.rs:463-735 | every request its mode or its handle forbids, listed request by request, is denied and changes nothing |
| `FilesAnswers.DeniedIsBarred` | src/services/files.rs:463-735 | and, in a directory without links whose system calls do not fail, nothing else is denied |
| `FilesAnswers.OpenedIsRead` | src/services/files.rs:312-530 | a file opened to read is read back: the octets at the offset, up to 262144, as many as asked for if there are, or the end of the file |
| `FilesAnswers.StatFollowsLstatDoesNot` | src/services/files.rs:199-277 | of a link Stat tells of its target, Lstat of the link, and ReadLink its text |
| `FilesAnswers.UploadGoesTo` | src/services/files.rs:320-363 | an upload goes to a unique name in wo, and in wo+ to the name asked for unless it is taken; the handle, the tree and the name remembered are exact, and so are the errors |
| `FilesAnswers.SetsWhatIsAsked` | src/services/files.rs:399-461 | with no failing call exactly the attributes asked for are set, a size only of a file that can be written; `FilesAnswers.SettingStops` says what stays after a failing one |
| `FilesAnswers.FailureIsReported` | src/services/files.rs:91-101 | a request whose system call fails is answered with the status of that failure and changes nothing |
| `FilesAnswers.MadeIsThere` | src/services/files.rs:612-640 | a directory made is empty and there under its name, and everything else is as it was |
| `FilesSession.Files.constructor` | src/services/files.rs:172-182 | a session starts empty and uninitialized |
| `FilesSession.Files.NewHandle` | src/services/files.rs:364-369 | handles are numbered upwards |
| `FilesSession.Files.CreateNew` | src/services/files.rs:278-293 | the tree changes only when the exclusive creation succeeds |
| `FilesSession.Files.OpenDropBox` | src/services/files.rs:325-352 | equals `FilesPolicy.OpenDropBox`: refusals in order, a unique name at once in `wo` and on collision in `wo+`, the requested name remembered with where it went |
| `FilesSession.Files.OpenShared` | src/services/files.rs:350-362 | equals `OpenExisting` or `OpenOnHost`: a read-only open creates nothing |
| `FilesSession.Files.Open` | src/services/files.rs:312-362 | equals `OpenStep`: the mode is checked before the path, and the path before the flags |
| `FilesSession.Files.SetStat` | src/services/files.rs:399-461 | equals `SetStatPath`: permissions, times, size; the first failure stops and earlier changes stay |
| `FilesSession.Files.FSetStat` | src/services/files.rs:568-580 | equals `FSetStatStep`: the same through a handle, refused for a handle not open for writing in write-only modes |
| `FilesSession.Files.Read` | src/services/files.rs:510-530 | equals `ReadStep`: refused in write-only modes and without a readable handle; at most 256 KiB, and end-of-file past the end |
| `FilesSession.Files.Stat` | src/services/files.rs:262-276 | equals `Statted`: a remembered upload is looked up where it went; in `wo` anything but the root does not exist, in `wo+` anything but a directory |
| `FilesSession.Files.Fstat` | src/services/files.rs:543-552 | equals `FstatStep`: attributes of an open file only |
| `FilesSession.Files.RealPath` | src/services/files.rs:595-611 | equals `RealPathStep`: the cleaned path below the virtual root |
| `FilesSession.Files.ReadLink` | src/services/files.rs:661-677 | equals `ReadLinkStep`: refused in write-only modes |
| `FilesSession.Files.Fsync` | src/services/files.rs:712-717 | equals `FsyncStep`: an unknown handle is a failure |
| `FilesSession.Files.Write` | src/services/files.rs:531-542 | equals `WriteStep`: only through a writable handle; a fault leaves the octets that landed |
| `FilesSession.Files.Close` | src/services/files.rs:507-509 | equals `CloseStep`: an unknown handle is a failure, a known one is gone |
| `FilesSession.Files.OpenDir` | src/services/files.rs:371-397 | equals `OpenDirStep`: every entry of the directory with its own attributes, sorted by name |
| `FilesSession.Files.ReadDir` | src/services/files.rs:582-594 | equals `ReadDirStep`: at most 64 entries, and end-of-file after the last |
| `FilesSession.Files.MkDir` | src/services/files.rs:612-641 | equals `MkDirStep`: refused in `ro` and `wo`, remembered in `wo+` |
| `FilesSession.Files.OnHost` | src/services/files.rs:642-659 | operations only read-write mode passes to the host; the mode is checked before the paths |
| `FilesSession.Files.Extended` | src/services/files.rs:694-727 | the extensions, each with its own order of checks |
| `FilesSession.Files.Process` | src/services/files.rs:471-732 | the whole dispatch equals the step function the theorems are about |
| `FilesSession.WriteThenRead` | src/services/files.rs:510-542 | octets written are read back from the same place |
| `FilesSession.Overwritten` | src/services/files.rs:531-542 | a write replaces exactly its range and fills a gap with zeros |
| `FilesSession.ListingIsComplete` | src/services/files.rs:371-397 | pages read to the end name every entry of the directory with its own attributes, in strictly ascending order of the names, and nothing else |
| `Listings.ByNameSorts` | src/services/files.rs:395-395 | sorting distinct names gives ascending order, nothing lost and nothing added |
| `FilesSession.RealPathIsFixed` | src/services/files.rs:595-611 | the real path of a real path is itself |
| `FilesSession.UniqueKeepsStemAndExtension` | src/services/files.rs:154-169 | a unique name keeps directory, stem and extension |
| `BrowserEngine.StepKeepsInv` | wasm/src/lib.rs:688-966 | every event keeps links and sockets paired and streams exact |
| `BrowserEngine.SweepKeepsInv` | wasm/src/lib.rs:913-938 | the sweep over all links keeps the invariant |
| `BrowserEngine.WriteOnceKeepsInv` | wasm/src/lib.rs:356-382 | a turn of a pending write keeps the invariant |
| `BrowserEngine.ReadKeepsInv` | wasm/src/lib.rs:331-354 | a look of a pending read keeps the invariant |
| `BrowserIdentity.RunContinues` | wasm/src/lib.rs:682-720 | over any run each slot either continues its link or holds one minted since |
| `BrowserIdentity.DeadStaysDead` | wasm/src/lib.rs:682-686 | a dead (handle, generation) pair is never live again, across slot reuse and `Engine::close` |
| `BrowserIdentity.LiveIsTheSameLink` | wasm/src/lib.rs:682-686 | while a pair stays live it names one link and one socket, whose streams only grow |
| `BrowserIdentity.ActsOnItsOwnLink` | wasm/src/lib.rs:331-405 | read, write, closeWrite and close act on the link they were minted for or on nothing |
| `BrowserIdentity.LinksAndSocketsPair` | wasm/src/lib.rs:820-838 | in every run links and sockets are in bijection, generations distinct, at most 256 of each, and each connection announced at most once |
| `BrowserIdentity.StreamsAreExact` | wasm/src/lib.rs:331-382 | in every run the socket carries exactly what writes accepted, what was consumed is what reads returned and what sweeps discarded, and reads returned exactly what was consumed if nothing was discarded; until the application closes nothing is |
| `BrowserReads.SweepKeepsReadsExact` | wasm/src/lib.rs:915-920 | a sweep keeps reads free of gaps if and only if the application has not closed or nothing is waiting to be received |
| `BrowserReads.ReadsAreExactUnlessDiscarded` | wasm/src/lib.rs:331-354 | over every run, what the reads returned is exactly what was consumed if and only if no sweep ever found received octets on the closed connection |
| `BrowserReads.ReadPastGap` | wasm/src/lib.rs:331-354 | why the condition is needed: a run of six events after which a read returns an octet past one a sweep discarded |
| `BrowserIdentity.WriteIsWhole` | wasm/src/lib.rs:356-382 | a write that reports success lies on the stream whole and in one piece, however interleaved |
| `BrowserIdentity.RemovedWasRead` | wasm/src/lib.rs:930-938 | in every run a sweep removes a link only after an application that did not close it has read all that was received |
| `BrowserIdentity.ServerFlowsDiffer` | wasm/src/lib.rs:806-838 | on a server, connections not closed are on pairwise distinct flows |
| `BrowserAnswers.ReadIsAnswered` | wasm/src/lib.rs:331-363 | in every run a read on a live connection is answered with the next `Min(65536, queued)` octets if any are queued, with the end of the stream if none are and the FIN has come, the socket is closed or its handshake is not over, and waits otherwise |
| `BrowserAnswers.WriteIsAnswered` | wasm/src/lib.rs:364-394 | what a turn of a pending write answers: failure when the connection is gone or cannot send, success when all that is left fits, and waiting otherwise, the buffer filled |
| `BrowserAnswers.CloseWriteQueuesFin` | wasm/src/lib.rs:395-402 | closing the writing side queues the FIN once, unless a write is pending, and changes nothing else |
| `BrowserAnswers.WriteAfterCloseFails` | wasm/src/lib.rs:364-402 | a write after the writing side was closed fails |
| `BrowserAnswers.CloseGivesUp` | wasm/src/lib.rs:403-405 | a close ends the sending side and gives up what comes, and a client then drains and closes |
| `BrowserAnswers.SweepDecides` | wasm/src/lib.rs:913-933 | what a sweep does with one link: announces it when first connected, gives up one not connected after sixty seconds, discards what a closed one has received, and removes one whose socket is closed with nothing to read |
| `BrowserActor.Browser.constructor` | wasm/src/lib.rs:634-660 | the engine starts empty, with generation 1 |
| `BrowserActor.Browser.AddLink` | wasm/src/lib.rs:705-719 | a link in the lowest free slot, with the next generation |
| `BrowserActor.Browser.Dial` | wasm/src/lib.rs:688-720 | a dial fails exactly at the cap or when connect fails; else the returned pair is live and its generation new |
| `BrowserActor.Browser.ReceiveSyn` | wasm/src/lib.rs:802-838 | a SYN is ignored by a client, on a live flow, or at the cap |
| `BrowserActor.Browser.SweepLink` | wasm/src/lib.rs:913-933 | equals `SweepOne`: discard, announce, give up after sixty seconds, remove when closed and drained, in this order |
| `BrowserActor.Browser.SweepAll` | wasm/src/lib.rs:911-938 | equals `SweepLinks`: visiting the links in any order gives the same tables |
| `BrowserActor.Browser.Sweep` | wasm/src/lib.rs:911-949 | equals the sweep step of the run theorems |
| `BrowserActor.Browser.CloseWhenQuiet` | wasm/src/lib.rs:939-949 | closing a drained engine after its grace |
| `BrowserActor.Browser.Close` | wasm/src/lib.rs:951-966 | equals `Shut`: every slot may be handed out again, but the generation counter goes on |
| `BrowserActor.Browser.Read` | wasm/src/lib.rs:331-354 | equals `ReadOnce`: data, end or wait, and nothing on a dead pair |
| `BrowserActor.Browser.Write` | wasm/src/lib.rs:356-361 | a second write while one is pending is refused |
| `BrowserActor.Browser.WriteOn` | wasm/src/lib.rs:362-382 | equals `WriteOnce`: what fits goes, in order; a dead pair or closed side fails |
| `BrowserActor.Browser.CloseWriting` | wasm/src/lib.rs:385-394 | equals `CloseWrite`: a pending write or dead pair leaves the socket alone |
| `BrowserActor.Browser.CloseConnection` | wasm/src/lib.rs:396-405 | equals `CloseConn`: only the own link is closed; a client then drains |
| `UdpFlows.StepKeepsInv` | src/runtime/datagram.rs:90-214 | every step keeps tokens and entries consistent |
| `UdpFlows.RunKeepsInv` | src/runtime/datagram.rs:90-214 | the invariant holds in every run |
| `UdpFlows.GoodTokensAreEntries` | src/runtime/datagram.rs:90-183 | a stream whose token is good is exactly its flow's entry, no two good streams share a flow, and there are at most 256 flows |
| `UdpFlows.OldStreamsAreCutOff` | src/runtime/datagram.rs:177-183 | once a token is cancelled nothing its stream queued ever leaves, and no later datagram reaches it |
| `UdpFlows.OutputIsTheEntrys` | src/runtime/datagram.rs:177-201 | what leaves on a flow was sent by the stream that is its entry at that moment |
| `UdpFlows.DatagramReachesTheEntry` | src/runtime/datagram.rs:172-175 | a datagram goes to its flow's entry, if there is room, and to no other stream |
| `UdpFlows.OnlyIdleFlowsExpire` | src/runtime/datagram.rs:203-214 | expiry cancels exactly the flows idle for the timeout |
| `UdpFlows.DialSucceedsBelowCap` | src/runtime.rs:643-657 | the port search finds a free port exactly when there are fewer than 256 flows |
| `UdpOutcomes.FirstDatagramOpens` | src/runtime/datagram.rs:108-176 | the first datagram of an admitted flow opens it while fewer than 256 others are: a new stream with that datagram waiting, or a cancelled one if nobody takes it |
| `UdpOutcomes.NextDatagramWaits` | src/runtime/datagram.rs:108-176 | a datagram on a held flow waits in its stream while fewer than 32 do, and touches the entry |
| `UdpOutcomes.ExpiryRemoves` | src/runtime/datagram.rs:203-214 | expiry leaves exactly the flows that are held and not idle for the timeout, and cuts the streams of the others off |
| `UdpActor.Actor.NewFlow` | src/runtime/datagram.rs:90-107 | a new entry and stream share a fresh token |
| `UdpActor.Actor.UdpInput` | src/runtime/datagram.rs:119-176 | equals `Input`: a cancelled entry makes way, then at most one new stream, then the datagram is queued |
| `UdpActor.Actor.UdpOutput` | src/runtime/datagram.rs:177-202 | a queued send leaves, as the packet of its flow and payload, only with a good token and an entry |
| `UdpActor.Actor.ReceivePacket` | src/runtime/datagram.rs:108-118 | a packet that parses is input on its flow, and any other changes nothing |
| `UdpPackets.BuildPacket` | src/runtime/datagram.rs:185-200 | the packet laid out in its buffer, checksum filled in last, is `PacketOf` |
| `UdpPackets.FilledChecksumVerifies` | src/runtime/datagram.rs:197-200 | the checksum filled in verifies, whatever the addresses and contents (section 8.1 of RFC 8200) |
| `UdpPackets.PacketIsRead` | src/runtime/datagram.rs:108-202 | what one end sends the other receives, on the same flow seen from its side, up to the longest datagram |
| `UdpPackets.ReplyComesBack` | src/runtime/datagram.rs:108-202 | a reply comes back to the flow it answers |
| `UdpPackets.DamagedIsDropped` | src/runtime/datagram.rs:112-118 | a packet with any one octet of its datagram changed, the length field aside, reaches no flow |
| `UdpPackets.HeadersAreLaidOut` | src/runtime/datagram.rs:177-202 | every field of a packet sent, at its place (section 3 of RFC 8200 and RFC 768) |
| `UdpPackets.TakenExactly` | src/runtime/datagram.rs:108-125 | which packets are taken: version 6, next header UDP, lengths that fit, a good checksum and two real ports |
| `UdpActor.Actor.ExpireUdp` | src/runtime/datagram.rs:203-214 | equals `Expire`: exactly the cancelled, dropped and idle entries go, and their tokens are cancelled |
| `UdpActor.Actor.DropsStream` | src/runtime/datagram.rs:50-54 | dropping a stream cancels its token |
| `UdpActor.Actor.Dial` | src/runtime.rs:643-657 | a dial fails exactly at the cap and never takes a flow in use |
| `UdpActor.Actor.constructor` | src/runtime.rs:543-543 | the table starts empty |
| `Numbers.NumberOfBigEndian` | src/derp.rs:368-369 | a number is read back from its octets |
| `Cbor.HeadRoundTrip` | src/protocol.rs:291-291 | a head is read back (section 3 of RFC 8949) |
| `Cbor.HeadIsShortest` | src/protocol.rs:291-291 | no head of the same kind and number is shorter (section 4.2.1 of RFC 8949) |
| `Cbor.RoundTrip` | src/protocol.rs:291-304 | decoding inverts encoding, whatever follows |
| `Cbor.DecodedIsSound` | src/protocol.rs:303-307 | decoded text is UTF-8 and decoded integers fit |
| `Utf8Texts.Utf8IsEncoded` | src/protocol.rs:303-307 | octets are taken as text exactly if they are the encoding of a sequence of Unicode scalar values (section 3 of RFC 3629); `Utf8Texts.EncodedIsUtf8` is the other half |
| `Base64Url.RoundTrip` | src/protocol.rs:292-302 | decoding inverts encoding (section 5 of RFC 4648) |
| `Base64Url.OneSpelling` | src/protocol.rs:302-302 | every accepted text is the encoding of what it decodes to |
| `Address.LookupIsLast` | src/protocol.rs:317-325 | of several pairs with one name the last wins |
| `Address.NodeLookup` | src/protocol.rs:263-278 | no field of an encoded node shadows another |
| `Address.NodeRoundTrip` | src/protocol.rs:391-419 | a node is read back named after its host, in its region |
| `Address.RegionRoundTrip` | src/protocol.rs:376-421 | a region is read back numbered and named by position, without STUN-only nodes |
| `Address.ValueRoundTrip` | src/protocol.rs:366-423 | the decoded map of an address gives its normal form |
| `Address.ParseInvertsEncode` | src/protocol.rs:246-423 | parsing an encoded address gives its normal form exactly when the text is within the size bound, and an error otherwise |
| `Address.ReencodingIsStable` | src/protocol.rs:246-293 | re-encoding a parsed address gives the same text |
| `Address.EncodeNodes` | src/protocol.rs:259-279 | equals `NodeValues`: STUN-only nodes are skipped |
| `Address.EncodeAddr` | src/protocol.rs:246-293 | equals `EncodeText`, the printer of the round-trip theorem |
| `Address.ReadNodes` | src/protocol.rs:391-419 | equals `ParseNodes`: the first bad node fails the list |
| `Address.ReadRegion` | src/protocol.rs:376-421 | equals `ParseRegion`: numbers and codes default to the position |
| `Address.ParseAddr` | src/protocol.rs:366-423 | equals `ParseText`, the parser of the round-trip theorem, with every error |
| `Address.PrintAndRead` | src/protocol.rs:246-423 | printing then reading through the loops gives the normal form, whose text is the same, or an error past the size bound |
| `AddressFields.NodeIsRead` | src/protocol.rs:391-419 | a node is read exactly when each of its nine fields says what it holds, or is missing and stands for its default |
| `AddressFields.RegionIsRead` | src/protocol.rs:376-420 | a region is read exactly when its fields say its number, code, name and nodes, the number defaulting to its position and the code to the number |
| `AddressFields.AddressIsRead` | src/protocol.rs:366-423 | an address is read exactly when its fields say its keys, home region and regions, with no key for a shared key of zeros |
| `AddressFields.EmptyIsLeftOut` | src/protocol.rs:246-293 | what is empty, zero or absent has no field, and everything else has one; a node with a host has no name |
| `AddressFields.TextIsRead` | src/protocol.rs:295-309 | a text is read exactly when it is "tc" and, within the size bound, one encoded value and nothing more |
| `Frames.DecodeInPieces` | wasm/src/lib.rs:523-538 | decoding may stop anywhere and go on when more octets arrive |
| `Frames.DecodeInvertsWire` | src/derp.rs:360-374 | decoding inverts any sequence of written frames within the size limit |
| `Frames.WireIsInjective` | src/derp.rs:360-374 | equal streams come only from equal frames |
| `Frames.Ws.constructor` | wasm/src/lib.rs:456-462 | the buffer starts empty |
| `Frames.Ws.OnMessage` | wasm/src/lib.rs:463-476 | however messages split the stream, frames returned and frames buffered stay those of all octets accepted; an overfull buffer closes |
| `Frames.Ws.NextFrame` | wasm/src/lib.rs:523-538 | the next whole frame, none yet, or an error that leaves the buffer alone |
| `Frames.ByteStream.WriteFrame` | src/derp.rs:360-374 | a frame within the limit is appended whole |
| `Frames.ByteStream.ReadFrame` | src/derp.rs:349-358 | a frame, or an error for an oversized or unfinished one |
| `Frames.Echo` | src/derp.rs:349-374 | a frame written is the frame read |
| `ProxyCommand.ExpandLine` | src/cli/util.rs:142-155 | `%%` expansion of the Unix line undoes the doubling and nothing else |
| `ProxyCommand.ShellLine` | src/cli/util.rs:142-155 | the shell splits the quoted words back (sections 2.2.2 and 2.2.3 of the POSIX Shell Command Language) |
| `ProxyCommand.UnixLineIsReadBack` | src/cli/util.rs:142-155 | a list is accepted exactly without CR, LF and NUL, and its line is read back as exactly the list |
| `ProxyCommand.CrtInQuotes` | src/cli/util.rs:157-171 | doubled trailing backslashes are halved and the rest taken as it is |
| `ProxyCommand.WindowsLineIsReadBack` | src/cli/util.rs:157-171 | a list is accepted exactly without its unsafe characters, and the C runtime splits its line back |
| `ServePorts.ParseServeSpec` | src/cli/util.rs:259-302 | reading parts succeeds exactly when every part can be read and no port has two targets; the ports are those some part names |
| `ServePorts.ParseServe` | src/cli/util.rs:253-302 | the same from the text: the empty text names nothing, any other is trimmed, split at commas and each part trimmed |
| `ServePorts.PartsOfJoined` | src/cli/util.rs:258-258 | texts joined by commas are read back as those texts, each trimmed |
| `ServePorts.PortRanges` | src/cli/util.rs:304-316 | sorted, disjoint, non-adjacent ranges whose union is exactly the set, 65535 included |
| `ServePorts.RangesAreCanonical` | src/cli/util.rs:304-316 | no other such list of ranges admits the same ports |
| `ServePorts.ServedPorts` | src/runtime.rs:907-910 | the runtime filter accepts precisely the ports the parts name |
| `ServeTexts.PortRange` | src/cli/util.rs:259-302 | two numbers with a dash between them are the ports from the lower to the higher, and refused above 65535 |
| `ServeTexts.HostMapped` | src/cli/util.rs:259-302 | a number, a host and a number map the first port to the second of that host, neither of them zero |
| `ServeTexts.WordsAreRead` | src/cli/util.rs:259-302 | each service word is read as its service |
| `ServeTexts.OthersAreRefused` | src/cli/util.rs:259-302 | a text that is none of the words and does not start with a digit is refused |
| `ServeTexts.TrimIsExact` | src/cli/util.rs:259-302 | white space around a part is dropped, whatever there is of it, and inside it is kept |
| `RelayRegistry.StepIsExact` | src/derp.rs:578-622 | registration, routing and teardown keep the table exact |
| `RelayRegistry.TableIsExact` | src/derp.rs:578-622 | an entry exists exactly when the latest registration of its key is not torn down, and is that connection |
| `RelayRegistry.PacketsReachTheLatest` | src/derp.rs:603-607 | a packet reaches the latest connection of its destination, from its sender's key |
| `RelayRegistry.OtherPacketsAreLost` | src/derp.rs:603-607 | a packet too long, for nobody connected, or for a connection with a full queue changes nothing |
| `RelayRegistry.LateTeardownIsHarmless` | src/derp.rs:616-622 | a displaced connection's teardown leaves the table alone |
| `RelayRegistry.Registry.constructor` | src/derp.rs:525-527 | the table starts empty |
| `RelayRegistry.Registry.Insert` | src/derp.rs:578-579 | the new connection becomes its key's entry |
| `RelayRegistry.Registry.Send` | src/derp.rs:603-607 | routing under the lock, dropping on a full queue |
| `RelayRegistry.Registry.Remove` | src/derp.rs:616-622 | the guarded removal |

## Left out

- Cryptography, WireGuard tunnels, key derivation and allow lists: an authenticated channel stands for them.
- The inside of the TCP stack (retransmission, congestion, checksums, options): `Tcp` is the contract assumed of it. A listening socket reset during its handshake is taken as closed, and handshake segments may arrive in any order.
- Real sockets, TLS, HTTP upgrade, STUN, DNS, WebSocket events, task scheduling and I/O errors other than the modelled ones: steps of the environment.
- Generation, token, handle and port counters do not overflow, except the 16-bit port counter, which wraps as in the program; their 64-bit limits are not modelled.
- `LinkActor.Actor.Dial`: does not promise a fresh flow, because the program takes the next port without looking; exactly when it is fresh is stated.
- `Link.flow` is not claimed to be the remote endpoint of the accepted socket; it is recorded before the SYN is accepted.
- What arrives in meow packets, relay selection, NAT64 inverse and status reports.
- `DiscoveryActor.Actor.Advertise`: states the payload and the probes, not that sealing and the relay queue may lose a copy.
- `DiscoveryActor.Actor.TakePing`: states the pong before it is sealed; sealing never fails and sending may.
- `DiscoveryActor.Actor.DiscoPacket`: gives the waiting ping that is answered; its latency and region are not computed.
- `DiscoveryActor.Actor.StartPingCommand`: states the frame, not that sealing, the relay queue or a direct datagram may lose it.
- `DiscoveryActor.Actor.RefreshPings`: states the frames in the same sense.
- `UdpActor.Actor.ReceivePacket`: whether a listener or handler takes the flow is an input; an accepted zero checksum and IPv6 extension headers are not modelled.
- `PerfSend.SendData`: pacing only moves the clock between readings, and clock readings are arbitrary, so no bit rate is claimed; time stamps in datagrams are left out.
- Jitter, round-trip statistics, progress output and the durations of received streams in the throughput test.
- Setting up a throughput test: the JSON messages and their line framing, parameter limits other than those a sender needs, the server's single active test and the attaching of its streams.
- `PerfReceive.ReceiveUdp`: the deadline is where the sequence of datagrams ends; jitter and duration are not computed. Receiving over TCP, which counts octets until the end of the stream, is not modelled.
- The unrooted SFTP mode, Windows paths, ownership changes and the file system statistics extension.
- Read-write SFTP operations that change names or open for writing are passed to the host with an arbitrary outcome: no promise is made about that mode beyond checks and order of errors.
- Directory sizes and time stamps, access times, and changes to the shared directory by anyone but the session.
- `FilesSession.Files.OpenDir`: an entry that vanishes while it is being listed is one failure; names are compared as they are, not after a lossy conversion to text.
- `FilesSession.Files.OpenShared`: an open that may change the directory, which only read-write mode has, has any outcome the host gives it.
- `FilesSession.Files.OnHost`: after the checks, what a removal, renaming or link does to the directory is any outcome the host gives.
- `FilesSession.Files.Process`: inherits those arbitrary outcomes in read-write mode; in the other modes the outcome is exact.
- `FilesSession.Files.Extended`: renaming and linking have any outcome the host gives after their checks.
- SFTP packet parsing: an extension's strings are given as readable or not, and a handle as the number its text denotes.
- `BrowserActor.Browser.Read`: one look at the socket; the refusal of a second read while one waits, its timer and its callbacks are not modelled.
- `Cbor.DecodedIsSound`: the decoder modelled here refuses floats, tags and indefinite lengths, which the program's decoder accepts and the address parser then ignores or refuses.
- `Address.ParseAddr`: reads what that decoder accepts; the raw diagnostic decoder and the expansion of an address from a relay map are not modelled.
- cmd.exe's own reading of a Windows line, the program-name rule of the C runtime for the first word, and any shell expansion: `ProxyCommand` covers word splitting and quoting.
- `ServePorts.ParseServeSpec`: starts from the parts, which `ServePorts.ParseServe` takes from the text; messages of errors are not modelled.
- `RelayRegistry.TableIsExact`: the handshake, keepalives and frame errors of the local relay are not modelled; a connection ends at any time.
- Process, PTY and SSH plumbing, command-line tables, key storage, web demo and build scripts: no state worth a proof here.

# RDK media framework: a verified model

This project models the state machines and protocols at the heart of the RDK media framework and
proves what they promise, for all inputs and all runs. GStreamer, sockets, clocks and the media player
behind the front end are inputs: every answer they could give is covered. In `MediaGraph` GStreamer is an
object with an arbitrary script of answers, and "granted" means that the script said yes to every call made.

| module | component | main results |
|---|---|---|
| `MediaGraph`, `BusRouting` | source/sink/filter graph, `core/rmfbase.cpp` | the graph stays consistent over any run of attach, detach and shutdown, also when GStreamer refuses; the shutdown loop survives the erasures under its iterator and passes every sink once; while no filter is moved away from the sinks it holds, its tee is in its source's pipeline exactly while needed; a bus message reaches at most one sink, and exactly the right one |
| `TrickPlay`, `HnSource` | trick play of the home-network source, `hnsource/hnsource.cpp` | resuming after a live pause tracks a sliding-window buffer within 6 s, with the exact condition for 3 s; pause latches fit together in every run; at most one terminal notification |
| `RpcClient` | JSON-RPC client, `dtvsource/rmfdtvsource.cpp` | in every interleaving the response a request carries is a function of the event log |
| `InstanceList`, `SharedSource` | shared DTV sources, `dtvsource/rmfdtvsource.cpp` | the linked list refines a sequence of distinct entries; the base source is open exactly while somebody is attached |
| `FilterRegistry` | shared ad-insertion filters, `rbi/RBIFilter.cpp` | reference conservation |
| `NptHeader`, `VodClock` | DLNA player, `rtrmfplayer/mediaplayerdlna.cpp` | printing and reading an npt position undo each other; a rewind ends, and at exactly which tick |
| `EventEmitter`, `FrontEnd` | remote player front end, `rtrmfplayer/rtrmfplayer.cpp` | no event lost, duplicated or reordered; the paused flag mirrors the events; deferred seeks coalesce |

Objects that the source updates in place are classes with `modifies` clauses. Their methods are proved to do
what a function on a value (`View()`) says and to keep the component's law on the object itself; what whole
runs guarantee is proved of those functions. In `MediaGraph`, `BusRouting`, `FilterRegistry` and the linked
list of `InstanceList` the laws are invariants of the heap objects.

## Where the code falls short of the obvious claim

Each of these has its exact condition in a lemma or contract.

- Detaching a sink ends the process exactly if a null pointer is hit or its queue is not in the pipeline in which
  it is looked for, and otherwise keeps the graph consistent exactly if there is such a pipeline
  (`MediaGraph.Sink.SetSource`). `MediaGraph.Graph.StrayQueue` and `MediaGraph.Graph.OrphanedEntry` are runs, with
  everything granted, that go wrong in either way; both move a filter that holds a sink.
- Every filter's tee and queues stay in the pipeline of the source it is attached to exactly if no filter is moved
  away from the sinks it holds (`MediaGraph.Graph.Perform`, for each operation); then every sink behind an attached
  filter can leave (`MediaGraph.Graph.RootedCanLeave`).
- A source's own handlers see an element's message exactly if no attached sink sent it and no filter is
  attached at all (`BusRouting.HandleBusMessage`): the answer of a filter's handler is ignored.
- A reply that arrives after a request was listed but before it was written is dropped, so "the first
  result received while listed" is the response exactly if no reply was premature (`RpcClient.FirstWhileListedIff`).
- Ids stay increasing exactly until the 32-bit counter wraps under a listed request (`RpcClient.SendKeepsOrderIff`).
- A further `open` of a live URL leaves the home-network source consistent exactly if it plays at normal speed
  (`TrickPlay.ReopenIff`); `open`, `term`, `open` ends "live" at speed 0.
- Reading the position of a source paused at live is harmless exactly if the buffer's length is already known
  (`TrickPlay.PollsHarmlessIff`); otherwise one read can move the parked position anywhere (`TrickPlay.PollMoves`).
- The home-network source forwards one note for every bus EOS whatever the latch says (`TrickPlay.TerminalBounds`).
  The GStreamer 0.10 build also bypasses the latch exactly for errors that end a recording
  (`TrickPlay.ErrorGuardedIff`), so it forwards at most one note exactly if at most one such error comes, and none
  together with a raised latch (`TrickPlay.AtMostOneTerminalIff`).
- A seek-range header makes the parser access a missing piece and throw exactly if its first `=` ends the value
  (`NptHeader.ThrowsIff`); the sum it computes is defined exactly below 2^31 seconds (`NptHeader.StoredIff`).
- What "dtv://" finds stays the same exactly if nothing is added and the front entry is not freed
  (`InstanceList.AnyKeepsIff`).
- An insertion keeps the shared instances distinct exactly if its URI and source are not listed by then
  (`InstanceList.AddKeepsDistinctIff`); two overlapping lookups list a URI twice (`InstanceList.OverlappingGetsDuplicate`).
- A client's `open` reaches the base source exactly if, by then, the inits and terms of everybody else balance
  (`SharedSource.OpenReachesIff`). Interleaved clients cause no misplaced base call exactly if every call that a
  client makes alone finds the source as that client expects it (`SharedSource.FaultFreeIff`);
  `SharedSource.JoiningFaults` and `SharedSource.LeavingFaults` are two ways to break that.
- Ticks counted at the start of an abandoned rewind shorten the next one (`VodClock.RestartTick` subtracts them).

## Model

| member | source | states |
|---|---|---|
| `MediaGraph.Sink.Init` | core/rmfbase.cpp:291-307 | creates the element once, exactly if granted; keeps the graph consistent |
| `MediaGraph.Sink.SetSource` | core/rmfbase.cpp:332-366 | exactly when the process ends, when the graph stays consistent, and when the call succeeds, for every sink and target; success means attached to the target, failure attached to nothing; exactly what the maps lose and gain and where the new queue is; tees stay sound, and exact if granted |
| `MediaGraph.Sink.Detach` | core/rmfbase.cpp:341-349 | exactly when the process ends; otherwise the sink forgets its source whatever the removal answers, both map entries go, the graph is consistent and the call can succeed exactly if a pipeline existed |
| `MediaGraph.Sink.Attach` | core/rmfbase.cpp:351-362 | consistent whether or not the add succeeds; exactly when it succeeds and when the process ends; exactly the new sink is added, in the pipeline consulted |
| `MediaGraph.Sink.Term` | core/rmfbase.cpp:310-329 | the process ends exactly if the sink is trapped; otherwise an initialized sink ends without a source, and the result tells of the detach when no state change is awaited |
| `MediaGraph.Source.Init` | core/rmfbase.cpp:683-748 | the pipeline exists afterwards, even when initialization reports failure, which it does exactly on a refusal |
| `MediaGraph.Source.InitFilter` | core/rmfbase.cpp:2192-2219 | the filter is ready exactly once its element exists; a pipeline of its own exactly on demand |
| `MediaGraph.Source.AddSink` | core/rmfbase.cpp:627-631 | succeeds exactly if the source takes sinks in and everything was granted, ends the process exactly on a ready filter without a source; both maps gain exactly the sink on success and nothing on failure |
| `MediaGraph.Source.AddSinkPlain` | core/rmfbase.cpp:1210-1327 | the same for a plain source, with its two refusals |
| `MediaGraph.Source.AddSinkFilter` | core/rmfbase.cpp:2222-2328 | the same for a filter; queue, and before the first sink the tee, go into the upstream pipeline; no recorded sink without a linked tee, whatever fails |
| `MediaGraph.Source.RemoveSink` | core/rmfbase.cpp:1369-1462 | both maps lose exactly the sink once it is found, even when the removal then fails; the process ends exactly if the filter has no source or the queue is not in the pipeline consulted; the last sink takes a filter's tee along (core/rmfbase.cpp lines 2330 to 2437) |
| `MediaGraph.Source.DetachAll` | core/rmfbase.cpp:793-804 | the loop over the erased map ends with both maps empty, every sink detached and each visited once |
| `MediaGraph.Source.DetachNext` | core/rmfbase.cpp:795-803 | one turn erases exactly the entry just left, so those ahead survive |
| `MediaGraph.WalkIsOnce` | core/rmfbase.cpp:793-804 | a finished walk visited the multiset of all sinks, each exactly once |
| `MediaGraph.Source.Term` | core/rmfbase.cpp:751-852 | no pipeline, empty maps, exactly the formerly attached sinks lose their source, all others keep theirs |
| `MediaGraph.Source.TermFilter` | core/rmfbase.cpp:2448-2489 | for a filter whose sinks and itself can leave: no sinks, no tee, no source, and the tee unlinked, whatever is refused; out of the pipeline if all was granted, and then success exactly if a state change is awaited or the element exists; also behind another filter |
| `MediaGraph.Source.TermSinks` | core/rmfbase.cpp:2452-2469 | every sink leaves and the tee ends unlinked whatever is refused; out of the pipeline if all was granted |
| `MediaGraph.Source.UnlinkTee` | core/rmfbase.cpp:2452-2455 | before any sink leaves, the tee of a ready filter is unlinked |
| `MediaGraph.Source.LeaveUpstream` | core/rmfbase.cpp:2471-2482 | the filter's sink half ends without a source and the tee is released; the result is that of the sink half; other tees stay as they should be |
| `MediaGraph.Graph.AttachedIff` | core/rmfbase.cpp:1316-1323 | pointer, queue entry and element entry agree for every sink and source |
| `MediaGraph.Graph.NothingElse` | core/rmfbase.cpp:1389-1397 | an element entry always belongs to an attached sink that owns the element |
| `MediaGraph.Graph.RootedCanLeave` | core/rmfbase.cpp:2333-2365 | a sink behind a plain source, or behind an attached filter that is rooted, can always be detached |
| `MediaGraph.Graph.Run` | core/rmfbase.cpp:332-366 | over any run of creations, initializations, attaches, detaches and shutdowns: consistency and soundness of every tee whatever is refused; exactness if all was granted, and also if every operation reports success and none hides a refusal; every filter stays rooted in a run that moves none away from the sinks it holds; everything the run creates is there |
| `MediaGraph.Graph.RunFromStart` | core/rmfbase.cpp:2305-2323 | the same from an empty graph; then, with everything granted, an attached filter has its tee linked and in the pipeline of its own source exactly while it has sinks |
| `MediaGraph.Graph.Perform` | core/rmfbase.cpp:351-365 | one operation of a run: it was performed on the objects it names and never ends the process; an attach succeeds exactly if the sink has its element, the target takes sinks in and all was granted; filters stay rooted exactly if none was moved away from the sinks it holds |
| `MediaGraph.Graph.Turn` | core/rmfbase.cpp:332-366 | an operation of a run is performed exactly if it is allowed |
| `MediaGraph.Graph.NewFilter` | core/rmfbase.cpp:2135-2153 | a new filter is a sink half and a source half that know each other; the graph stays consistent |
| `MediaGraph.Graph.OrphanedEntry` | core/rmfbase.cpp:2334-2336 | a run, everything granted, that ends with a sink in the map of a filter it is not attached to |
| `MediaGraph.Graph.MovedFilter` | core/rmfbase.cpp:341-362 | a run, everything granted, after which a filter consults a pipeline that holds neither its tee nor its sink's queue |
| `MediaGraph.Graph.StrayQueue` | core/rmfbase.cpp:2364-2365 | detaching that sink ends the process |
| `BusRouting.OneListener` | core/rmfbase.cpp:1833-1879 | no two sinks can both be entitled to a message |
| `BusRouting.FilterHandle` | core/rmfbase.cpp:2526-2553 | the loop over a filter's sinks reaches the one whose element sent the message, or none |
| `BusRouting.AskFilters` | core/rmfbase.cpp:1860-1873 | over several filters at most one sink hears; any filter drops the message |
| `BusRouting.HandleSinkMessage` | core/rmfbase.cpp:1833-1879 | the sinks that hear are exactly those entitled; exact condition for dropping |
| `BusRouting.HandleBusMessage` | core/rmfbase.cpp:1653-1662 | a directly attached sink hears its own messages alone; own handlers run exactly if the message has no element, or no attached sink sent it and no filter is attached |
| `TrickPlay.ParkIsGuarded` | hnsource/hnsource.cpp:587-595 | a pause parks 3 s behind the newest known point, bounded by the buffer's capacity |
| `TrickPlay.ResumeNearWindow` | hnsource/hnsource.cpp:697-731 | after any position reads and length reports while paused, the resumed position is within 6 s of the sliding window's answer plus the measuring lead, never closer than 3 s to the live edge |
| `TrickPlay.ResumeTracksWindow` | hnsource/hnsource.cpp:706-727 | with exact measurement the error exceeds 3 s exactly for pauses in the last 3 s before the buffer filled |
| `TrickPlay.ResumeIs` | hnsource/hnsource.cpp:706-727 | where exactly a live pause resumes, in all four cases |
| `TrickPlay.VodResumes` | hnsource/hnsource.cpp:706-707 | a VOD asset resumes exactly where it was paused, at the speed it had, whatever the time and lengths |
| `TrickPlay.RecordingResumes` | hnsource/hnsource.cpp:732-752 | a recording paused and resumed stands as before |
| `TrickPlay.PollsHarmlessIff` | hnsource/hnsource.cpp:1119-1129 | exactly when reading the position changes nothing |
| `TrickPlay.PollMoves` | hnsource/hnsource.cpp:1119-1129 | when it does, it can put the parked position anywhere |
| `TrickPlay.CompensationIsExact` | hnsource/hnsource.cpp:813-816 | slow motion and rewind from a live pause start at the live edge itself |
| `TrickPlay.SeekBehindEdge` | hnsource/hnsource.cpp:1205-1217 | a seek lands where asked, at normal speed, but never closer than 3 s to the live edge |
| `TrickPlay.PositionShown` | hnsource/hnsource.cpp:1101-1190 | the position is base plus played time at the current speed, never negative, with its three fallbacks |
| `TrickPlay.PlayLands` | hnsource/hnsource.cpp:803-910 | where playing at a speed and time lands, for every speed; nothing moves without a readable pipeline |
| `TrickPlay.SpeedLands` | hnsource/hnsource.cpp:1067-1083 | a change of speed goes on from the position shown; fast forward at the live edge is refused |
| `TrickPlay.JumpLands` | hnsource/hnsource.cpp:965-1013 | a jump to live lands at the given position, live and at normal speed |
| `TrickPlay.PauseMeans` | hnsource/hnsource.cpp:576-619 | what a pause remembers: when, and whether the buffer was nearly full |
| `TrickPlay.NothingAfterError` | hnsource/hnsource.cpp:570-571 | once an error was reported no call changes playback |
| `TrickPlay.OpenMeans` | hnsource/hnsource.cpp:467-520 | what a URL makes of a new source, buffer size in minutes included |
| `TrickPlay.TermMeans` | hnsource/hnsource.cpp:536-563 | what `term` forgets and what it keeps |
| `TrickPlay.LengthMeans` | hnsource/hnsource.cpp:939-947 | a length is taken as reported, a negative one as none |
| `TrickPlay.BaseAfterMessage` | hnsource/hnsource.cpp:1348-1351 | a rewind that ends starts over; a new PMT takes the position shown |
| `TrickPlay.TrailerNotice` | hnsource/hnsource.cpp:1401-1407 | the trailer notice is what the last server message said, until playback starts anew |
| `TrickPlay.StepSettled` | hnsource/hnsource.cpp:565-681 | every call keeps the inductive latch invariant |
| `TrickPlay.OpenedOnceStaysConsistent` | hnsource/hnsource.cpp:467-520 | after one open, any calls: after-limit implies at-live implies paused, and live means normal speed and not paused |
| `TrickPlay.ReopenIff` | hnsource/hnsource.cpp:483-491 | when a further open of a live URL keeps that |
| `TrickPlay.ReopenAfterTermBreaks` | hnsource/hnsource.cpp:546-561 | a concrete run where it does not |
| `TrickPlay.ErrorSilentIff` | hnsource/hnsource.cpp:1409-1494 | when an error on the bus is not forwarded |
| `TrickPlay.ErrorKinds` | hnsource/hnsource.cpp:1409-1494 | which error text is forwarded as which error |
| `TrickPlay.EosKinds` | hnsource/hnsource.cpp:1348-1399 | what a bus EOS is forwarded as |
| `TrickPlay.ElementKinds` | hnsource/hnsource.cpp:1587-1662 | what a valid trailer is forwarded as |
| `TrickPlay.ErrorGuardedIff` | hnsource/hnsource.cpp:1409-1494 | an error forwards one note exactly if it raises the latch: always in the GStreamer 1 build, in the 0.10 build exactly if it does not end a recording |
| `TrickPlay.ElementGuarded` | hnsource/hnsource.cpp:1587-1662 | a server message forwards one note exactly if it raises the latch |
| `TrickPlay.StepLatch` | hnsource/hnsource.cpp:1348-1399 | no call, open and playing notice included, clears the latch; what each forwards |
| `TrickPlay.TerminalBounds` | hnsource/hnsource.cpp:1348-1494 | over any run at most one note beyond the unguarded ones, none once latched; both builds |
| `TrickPlay.TerminalCount` | hnsource/hnsource.cpp:1587-1662 | without bus EOS the number of notes exactly; none unguarded in the GStreamer 1 build |
| `TrickPlay.UnguardedMeans` | hnsource/hnsource.cpp:1441-1456 | the unguarded notes of the 0.10 build are the places where an error ends a recording |
| `TrickPlay.AtMostOneTerminalIff` | hnsource/hnsource.cpp:1409-1494 | at most one terminal notification over any run without bus EOS: always in the GStreamer 1 build; in the 0.10 build exactly if no two errors end a recording and none does in a run that raises the latch |
| `TrickPlay.OldBuildRepeatsEos` | hnsource/hnsource.cpp:1450-1456 | a run of the 0.10 build from `open` on that forwards the synthesised EOS twice |
| `HnSource.HnSourcePrivate.Open` | hnsource/hnsource.cpp:467-520 | refines the specification; exactly when a live open keeps the latches settled |
| `HnSource.HnSourcePrivate.Term` | hnsource/hnsource.cpp:536-563 | refines the specification; keeps the pause latches settled and the terminal latch up |
| `HnSource.HnSourcePrivate.GetMediaTime` | hnsource/hnsource.cpp:1101-1190 | refines the specification, including the one-time length update; keeps the pause latches settled and the terminal latch up |
| `HnSource.HnSourcePrivate.PausePlayback` | hnsource/hnsource.cpp:565-681 | refines the specification; a pause at live parks 3 s behind the newest point known, bounded by the buffer's capacity |
| `HnSource.HnSourcePrivate.PlayAt` | hnsource/hnsource.cpp:789-928 | refines the specification; keeps the pause latches settled and the terminal latch up |
| `HnSource.HnSourcePrivate.Play` | hnsource/hnsource.cpp:697-752 | refines the specification; a paused VOD asset goes on from where it stands at the speed it had; keeps the pause latches settled and the terminal latch up |
| `HnSource.HnSourcePrivate.PlayAtLivePosition` | hnsource/hnsource.cpp:965-1038 | refines the specification; keeps the pause latches settled and the terminal latch up |
| `HnSource.HnSourcePrivate.SetSpeed` | hnsource/hnsource.cpp:1067-1083 | refines the specification; keeps the pause latches settled and the terminal latch up |
| `HnSource.HnSourcePrivate.SetMediaTime` | hnsource/hnsource.cpp:1205-1217 | lands where asked at normal speed and never closer than 3 s to the live edge; keeps the pause latches settled and the terminal latch up |
| `HnSource.HnSourcePrivate.OnError` | hnsource/hnsource.cpp:1409-1494 | new state and notes are the specification's; one note exactly if the latch went up, which never comes down |
| `HnSource.HnSourcePrivate.OnEos` | hnsource/hnsource.cpp:1348-1399 | new state and notes are the specification's; always one note, and the latch never comes down |
| `HnSource.HnSourcePrivate.HandleElementMsg` | hnsource/hnsource.cpp:1587-1667 | new state and notes are the specification's; one note exactly if the latch went up, which never comes down |
| `HnSource.HnSourcePrivate.OnPadBlocked` | hnsource/hnsource.cpp:1497-1533 | a PMT update restarts from the position read, pause latches and terminal latch untouched |
| `RpcClient.FirstAfterMeans` | dtvsource/rmfdtvsource.cpp:1273-1294 | the recursive search finds the first result after an event, by position |
| `RpcClient.ReplyMeans` | dtvsource/rmfdtvsource.cpp:197-208 | a reply is the text of the first result after the write |
| `RpcClient.SendInv` | dtvsource/rmfdtvsource.cpp:743-772 | queueing keeps the protocol invariant before the counter wraps |
| `RpcClient.WriteFromInv` | dtvsource/rmfdtvsource.cpp:1306-1312 | writing all pending requests keeps it, each write being the first of its id |
| `RpcClient.WriteFromMeans` | dtvsource/rmfdtvsource.cpp:1306-1312 | every request not yet written is tried: exactly those the socket takes are marked, nothing else of them changes, and their writes are logged in list order |
| `RpcClient.ReceiveInv` | dtvsource/rmfdtvsource.cpp:1262-1297 | filing a result keeps it |
| `RpcClient.WithoutIs` | dtvsource/rmfdtvsource.cpp:800-802 | removal takes out exactly the requests of an id and keeps the order |
| `RpcClient.RunKeepsListed` | dtvsource/rmfdtvsource.cpp:787-803 | a request stays listed through any steps that do not remove it |
| `RpcClient.EveryRun` | dtvsource/rmfdtvsource.cpp:743-824 | in every interleaving: increasing ids up to the counter, no id written twice, responses only to written requests, and each the first result after its write |
| `RpcClient.FirstWhileListedIff` | dtvsource/rmfdtvsource.cpp:1275-1287 | exactly when that is also the first result received while listed |
| `RpcClient.PrematureResultIsLost` | dtvsource/rmfdtvsource.cpp:1275-1287 | a run where it is not |
| `RpcClient.SendKeepsOrderIff` | dtvsource/rmfdtvsource.cpp:753-760 | exactly when queueing keeps ids increasing |
| `RpcClient.Client.SendRequest` | dtvsource/rmfdtvsource.cpp:743-772 | refused exactly when disconnected; otherwise appends exactly one request under the next id; keeps the protocol invariant before the counter wraps |
| `RpcClient.Client.OnWritable` | dtvsource/rmfdtvsource.cpp:1300-1315 | a request is marked exactly if it was, or if the socket answers its write with anything but 0; ids, responses and order are kept; the log grows by exactly these writes; keeps the protocol invariant |
| `RpcClient.Client.OnReceive` | dtvsource/rmfdtvsource.cpp:1262-1298 | a result is filed with exactly the written, unanswered requests of its id; keeps the protocol invariant |
| `RpcClient.Client.WaitForResponse` | dtvsource/rmfdtvsource.cpp:774-824 | with any steps of other threads between the two critical sections: the caller gets the first result received after its request was written, and nothing exactly if there was none or the request was taken away unanswered; exactly that id leaves the list on demand |
| `SharedSource.OpenWhileAttached` | dtvsource/rmfdtvsource.cpp:1069-1158 | over any run of whole attaches and detaches: count is the number of clients, initialised and open exactly while it is positive, no misplaced base call |
| `SharedSource.CountIs` | dtvsource/rmfdtvsource.cpp:1069-1114 | after any calls the count is the start plus inits minus terms, wrapped |
| `SharedSource.ReachesIff` | dtvsource/rmfdtvsource.cpp:1069-1158 | which calls reach the base source |
| `SharedSource.OpenReachesIff` | dtvsource/rmfdtvsource.cpp:1120-1136 | exactly when an open reaches the base source, whatever others call between init and open |
| `SharedSource.FaultFreeIff` | dtvsource/rmfdtvsource.cpp:1069-1158 | for any interleaving of orderly clients: count, initialised and open state, and exactly when no base call is misplaced |
| `SharedSource.JoiningFaults` | dtvsource/rmfdtvsource.cpp:1142-1158 | a client joining while the last one leaves opens an open source |
| `SharedSource.LeavingFaults` | dtvsource/rmfdtvsource.cpp:1142-1158 | two clients closing before either terminates leave the source open when it is terminated |
| `SharedSource.DtvSource.Join` | dtvsource/rmfdtvsource.cpp:1069-1136 | after a whole attach the source is initialised and open, its count is the number of clients, and no base call was misplaced |
| `SharedSource.DtvSource.Leave` | dtvsource/rmfdtvsource.cpp:1096-1158 | after a whole detach the source is initialised and open exactly if clients remain |
| `InstanceList.LookupMeans` | dtvsource/rmfdtvsource.cpp:944-955 | a lookup fails exactly if no entry matches |
| `InstanceList.LookupIff` | dtvsource/rmfdtvsource.cpp:944-955 | a specific URI finds a source exactly if that entry is listed |
| `InstanceList.UnlinkedIs` | dtvsource/rmfdtvsource.cpp:1018-1049 | unlinking removes exactly the entry of the source and keeps the rest distinct |
| `InstanceList.UnlinkedAt` | dtvsource/rmfdtvsource.cpp:1028-1035 | unlinking keeps the order of the rest |
| `InstanceList.SameUntilFreed` | dtvsource/rmfdtvsource.cpp:929-1052 | over any run entries stay distinct and a specific URI keeps its source until that is freed |
| `InstanceList.GoneAfterFree` | dtvsource/rmfdtvsource.cpp:1020-1041 | a freed source is found by no lookup after any run that does not create it again |
| `InstanceList.AnyFindsNewest` | dtvsource/rmfdtvsource.cpp:947-950 | "dtv://" finds the newest entry |
| `InstanceList.AnyKeepsIff` | dtvsource/rmfdtvsource.cpp:944-955 | exactly when "dtv://" keeps finding the same source |
| `InstanceList.UndisturbedGet` | dtvsource/rmfdtvsource.cpp:941-979 | the two critical sections of one call, undisturbed, are the list step |
| `InstanceList.AddKeepsDistinctIff` | dtvsource/rmfdtvsource.cpp:973-979 | exactly when an insertion keeps the entries distinct |
| `InstanceList.OverlappingGetsDuplicate` | dtvsource/rmfdtvsource.cpp:941-979 | the interleaved run of two calls that lists a URI twice |
| `InstanceList.Registry.GetInstance` | dtvsource/rmfdtvsource.cpp:929-1009 | the pointer walk and insertion refine the list step; a new source is a new object with no users |
| `InstanceList.Registry.FreeInstance` | dtvsource/rmfdtvsource.cpp:1011-1052 | refines unlinking when unused, nothing otherwise; the list stays acyclic |
| `InstanceList.Registry.Relink` | dtvsource/rmfdtvsource.cpp:1028-1035 | the pointer surgery leaves a well-linked list without the node |
| `InstanceList.Registry.Serve` | dtvsource/rmfdtvsource.cpp:929-1052 | over any run of clients on the heap: entries distinct, list acyclic, and a specific URI keeps its source until that is freed |
| `FilterRegistry.Registry.GetInstance` | rbi/RBIFilter.cpp:225-267 | one more user, one more reference beyond the first; registered under its own locator |
| `FilterRegistry.Registry.ReleaseInstance` | rbi/RBIFilter.cpp:269-304 | one user fewer; the last one unregisters the filter with no reference left; an unused filter is refused |
| `FilterRegistry.Registry.Run` | rbi/RBIFilter.cpp:225-304 | over any run, for every locator: the users are those the acquires and releases leave, and the references are one fewer |
| `NptHeader.TimeToHms` | rtrmfplayer/mediaplayerdlna.cpp:527-535 | minutes and seconds below 60, and the parts sum to the time |
| `NptHeader.RoundHundredths` | rtrmfplayer/mediaplayerdlna.cpp:562-562 | within half a hundredth of the value |
| `NptHeader.RoundShift` | rtrmfplayer/mediaplayerdlna.cpp:562-562 | rounding commutes with adding whole seconds, ties included |
| `NptHeader.SplitString` | rtrmfplayer/mediaplayerdlna.cpp:93-101 | the loop computes the split specification |
| `NptHeader.SplitPiece` | rtrmfplayer/mediaplayerdlna.cpp:93-101 | a piece without the delimiter comes off whole |
| `NptHeader.TrimString` | rtrmfplayer/mediaplayerdlna.cpp:103-125 | the loops compute the trim specification |
| `NptHeader.TrimPadded` | rtrmfplayer/mediaplayerdlna.cpp:103-125 | trimming takes off exactly the surrounding blanks |
| `NptHeader.TrimBlank` | rtrmfplayer/mediaplayerdlna.cpp:103-125 | nothing is left of blanks |
| `NptHeader.LookUpHeader` | rtrmfplayer/mediaplayerdlna.cpp:127-140 | the loop finds the first matching header |
| `NptHeader.FindHeaderNone` | rtrmfplayer/mediaplayerdlna.cpp:127-140 | without a matching line the value is empty |
| `NptHeader.HeaderWithoutColon` | rtrmfplayer/mediaplayerdlna.cpp:132-135 | without a colon the whole line is the value |
| `NptHeader.HeaderRoundTrip` | rtrmfplayer/mediaplayerdlna.cpp:127-140 | a value put into a padded line behind other headers is found again |
| `NptHeader.ParsePosition` | rtrmfplayer/mediaplayerdlna.cpp:628-667 | refines the reading function, throwing case included |
| `NptHeader.ThrowsIff` | rtrmfplayer/mediaplayerdlna.cpp:634-639 | exactly when reading throws |
| `NptHeader.MissingIff` | rtrmfplayer/mediaplayerdlna.cpp:674-678 | exactly when a header value has no piece to access after its first equals sign |
| `NptHeader.FieldsRoundTrip` | rtrmfplayer/mediaplayerdlna.cpp:650-652 | each printed field converts back to its number |
| `NptHeader.TwoDigitsForm` | rtrmfplayer/mediaplayerdlna.cpp:562-562 | hours and minutes print in decimal, padded to two digits |
| `NptHeader.SecondsForm` | rtrmfplayer/mediaplayerdlna.cpp:562-562 | seconds print as whole seconds, a point and exactly the two digits of the rounded hundredths |
| `NptHeader.ValueForm` | rtrmfplayer/mediaplayerdlna.cpp:562-562 | unit, fields between colons, open end |
| `NptHeader.AtoiSigned` | rtrmfplayer/mediaplayerdlna.cpp:650-652 | blanks and a sign before the digits, and no digits at all |
| `NptHeader.OtherFormsAreZero` | rtrmfplayer/mediaplayerdlna.cpp:634-654 | a value of any other form reads as 0 |
| `NptHeader.RoundTrip` | rtrmfplayer/mediaplayerdlna.cpp:634-654 | a printed position reads back as the whole seconds of the position rounded to hundredths |
| `NptHeader.ReadsSameSecondIff` | rtrmfplayer/mediaplayerdlna.cpp:562-562 | exactly when that is the position's own second |
| `NptHeader.StoredIff` | rtrmfplayer/mediaplayerdlna.cpp:654-654 | exactly when the sum over a printed position is defined, and that it is then stored as read |
| `NptHeader.SeekPosition.OnReply` | rtrmfplayer/mediaplayerdlna.cpp:628-754 | exactly when reading a reply throws, over both headers; the position it leaves: 0 once the end was announced, untouched on a throw; exactly when it announces the end; the rate is heeded only until then |
| `VodClock.Position` | rtrmfplayer/mediaplayerdlna.cpp:1025-1031 | never negative |
| `VodClock.ArrivalMeans` | rtrmfplayer/mediaplayerdlna.cpp:788-788 | a rewind shows position 0 after n ticks exactly from its arrival tick on |
| `VodClock.RewindCourse` | rtrmfplayer/mediaplayerdlna.cpp:774-795 | the whole course of a rewind, tick by tick |
| `VodClock.RewindPosition` | rtrmfplayer/mediaplayerdlna.cpp:774-795 | rate and position at every tick before the restart |
| `VodClock.RewindEnds` | rtrmfplayer/mediaplayerdlna.cpp:788-794 | playback restarts at 0 with rate 1 at tick max(1, ceil(p / d)) + 7, less the ticks left over from an abandoned rewind, hence within ceil(p / d) + 8, where d is 8 at rate -4 and the size of the rate otherwise |
| `VodClock.ForwardCourse` | rtrmfplayer/mediaplayerdlna.cpp:774-786 | forward, n ticks move the clock by n times the rate, twice that at rate 4, and nothing else |
| `VodClock.ForwardPosition` | rtrmfplayer/mediaplayerdlna.cpp:1025-1031 | the position shown on the way |
| `VodClock.EndMeans` | rtrmfplayer/mediaplayerdlna.cpp:2059-2080 | what the end of playback does to rewind, recordings in progress and the rest |
| `VodClock.VodPlayer.OnProgressTimerTimeout` | rtrmfplayer/mediaplayerdlna.cpp:774-795 | refines the tick; forward, the position moves by the rate, by 8 at rate 4 |
| `VodClock.VodPlayer.RewindOut` | rtrmfplayer/mediaplayerdlna.cpp:774-795 | firing the timer ends every rewind after exactly its restart tick, within the bound, with playback at 0 and rate 1 |
| `EventEmitter.FireInv` | rtrmfplayer/rtrmfplayer.cpp:1060-1098 | a firing delivers exactly the oldest event and keeps the invariant, re-entrant sends included |
| `EventEmitter.EveryRun` | rtrmfplayer/rtrmfplayer.cpp:1059-1107 | over any run: what was sent is exactly what the steps sent, each event once and in order; what was delivered is its beginning, one event for every firing that happened; one timer is armed exactly while events wait |
| `EventEmitter.Drains` | rtrmfplayer/rtrmfplayer.cpp:1091-1097 | once sending stops, as many firings as waiting events deliver everything |
| `EventEmitter.Emitter.SendEvent` | rtrmfplayer/rtrmfplayer.cpp:1100-1104 | queues and records exactly one event, armed or not; nothing lost, doubled or reordered, and the timer armed |
| `EventEmitter.Emitter.HandleEvent` | rtrmfplayer/rtrmfplayer.cpp:1060-1098 | refines the firing step; exactly the oldest event goes out, and the timer stays exactly while events remain |
| `FrontEnd.CallbackMirrors` | rtrmfplayer/rtrmfplayer.cpp:576-615 | a buffer-state callback keeps flag and events together |
| `FrontEnd.CallbackMeans` | rtrmfplayer/rtrmfplayer.cpp:576-615 | exactly when a callback starts or stalls the player, and the one event it sends |
| `FrontEnd.NextMirrors` | rtrmfplayer/rtrmfplayer.cpp:716-787 | every task does, with any callbacks nested in it |
| `FrontEnd.PausedMirrorsEvents` | rtrmfplayer/rtrmfplayer.cpp:598-614 | over any run the flag is down exactly when the last play or pause event since the last load was playing |
| `FrontEnd.NextSeeks` | rtrmfplayer/rtrmfplayer.cpp:894-911 | what each step does to the pending seek, whatever is called back |
| `FrontEnd.RunCoalesced` | rtrmfplayer/rtrmfplayer.cpp:302-308 | the coalescing invariant over any run |
| `FrontEnd.SeeksCoalesce` | rtrmfplayer/rtrmfplayer.cpp:894-911 | a seek carries the latest value, none is applied twice, and the latest is applied by the time no task is left |
| `FrontEnd.RtPlayer.OnCallback` | rtrmfplayer/rtrmfplayer.cpp:576-615 | exactly when the flag turns and which event is sent; the flag keeps mirroring the events |
| `FrontEnd.RtPlayer.OnLoad` | rtrmfplayer/rtrmfplayer.cpp:675-714 | a new paused player with an empty buffer and the mark of the load, then its callbacks; the flag keeps mirroring the events |
| `FrontEnd.RtPlayer.OnPlay` | rtrmfplayer/rtrmfplayer.cpp:716-742 | plays exactly if it can and something stands still, and reports it exactly if there is future data after the callbacks; otherwise nothing but the callbacks; the flag keeps mirroring the events |
| `FrontEnd.RtPlayer.OnPause` | rtrmfplayer/rtrmfplayer.cpp:744-758 | pauses exactly if the player does not stand still, and reports it exactly if it then does; the flag keeps mirroring the events |
| `FrontEnd.RtPlayer.OnStop` | rtrmfplayer/rtrmfplayer.cpp:760-769 | the player is gone after its last callbacks, and no other event is sent; the flag keeps mirroring the events |
| `FrontEnd.RtPlayer.OnChangeSpeed` | rtrmfplayer/rtrmfplayer.cpp:771-787 | a paused player is woken up with one event before the speed is set; the flag keeps mirroring the events |
| `FrontEnd.RtPlayer.OnSeek` | rtrmfplayer/rtrmfplayer.cpp:894-911 | hands the pending value on exactly if there is a player, takes it away, and wakes up a player still paused after it; the flag keeps mirroring the events |
| `FrontEnd.RtPlayer.Handle` | rtrmfplayer/rtrmfplayer.cpp:302-308 | anything that can happen keeps both laws; a value handed on is the latest and was not handed on before; when no seek task is left the latest value was handed on |

## Left out

- `MediaGraph.Source.AddSink`: says nothing about what a partly failed call leaves in the GStreamer bin; elements added before the failure stay there.
- `MediaGraph.Source.TermFilter`: requires that its sinks and then the filter itself can leave; the code dereferences the filter's source unchecked and asserts that the map is empty afterwards.
- `MediaGraph.Graph.Run`: performs only operations that neither end the process nor leave a stale entry; a tee counts as linked until the code unlinks it, so what GStreamer itself unlinks when a filter element leaves a pipeline is not modelled.
- `BusRouting.FilterHandle`: filters behind filters are not searched, as in the code.
- `TrickPlay.ResumeNearWindow`: times are reals; float rounding is not modelled.
- `HnSource.HnSourcePrivate.Open`: substring searches in URLs, error texts and trailers are inputs (which phrases occur, which code); result codes of the trick-play calls are not returned.
- `HnSource.HnSourcePrivate.OnPadBlocked`: the wait for the pad to block, on a foreign thread, is not modelled.
- `RpcClient.Client.WaitForResponse`: other threads do not take an answered request away before its caller has; the code would then use a dangling iterator.
- `SharedSource.OpenWhileAttached`: base calls succeed.
- `FilterRegistry.Registry.GetInstance`: filter initialization and source attachment succeed, and the source given for a new locator is the one the QAM factory serves.
- `NptHeader.ParsePosition`: sums beyond the range of a signed integer, undefined in the source, keep their mathematical value; the ad-insertion header of a reply is not modelled.
- `VodClock.VodPlayer.OnProgressTimerTimeout`: models VOD assets; the position of other assets comes from the pipeline.
- `FrontEnd.RtPlayer.OnCallback`: time updates sent inside a buffer-state callback appear as a separate neutral event.
- `EventEmitter.Emitter.HandleEvent`: the hang detector and the clearing of listeners on a broken connection are not modelled; an event handed to the emitter counts as delivered.
- Sink and source event handlers (lists of listeners), speed notification and CCI updates of the core: easy list bookkeeping.
- Proxy service, IPPV client, discovery, dump and player sinks, sample applications: plumbing over code that is not part of this model.

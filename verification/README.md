# wl-clip-persist, modelled and verified in Dafny

wl-clip-persist is a Wayland client that reads every new clipboard selection into memory and then takes
the selection over, so that the data outlive the program they were copied from. This project models
the part of it that makes that promise, and proves that it is kept: the per-seat selection machine
and the callbacks that drive it, the resolution loop with its server roundtrip, the concurrent reader
that is dropped and restarted whenever an event arrives, the publication, the task that writes to
other clients, the reference counts of the MIME types, and the reconnect loop.

## How the model is built

* `Protocol`, `History`: requests, events and settings, and what can be told from the dispatched
  events alone. The theorems about the client are stated against `History`, not against its state.
* `ClientSpec`: every callback, the two halves of the resolution loop, the reader's wake-ups and the
  publication as functions on a value `World`, which includes ledgers of requests, events and
  publications. A run is a list of actions: a batch of events arrives, a roundtrip is answered (with
  any batch of events dispatched along the way), or a pipe is ready. `Env` is what the outside
  decides: the order in which hash tables are walked and sorted lists come out, and how the creation
  of each pipe turns out.
* `ClientObjects`, `ClientProgram`, `ClientLoop`, `MainLoop`: the same client as a program of classes
  and loops that update seats, selections and the connection in place. Each method is proved against
  its function, and the main loop against the run, so that every theorem about runs is one about the
  program (`MainLoop.RunFromStart`).
* `ClientInvariant`, `Resolution`, `ClientRuns`: the invariant and its proof, over every run.
* `PipeReader`, `ReadingTasks`, `BrokenPipes`: the concurrent reader as a function of its wake-ups, the
  tasks behind it that are lost and made anew, and exactly when read errors make its verdict depend on
  the order of events.
* `ClientTheorems`, `Wire`, `Sources`, `SourceLife`, `Devices`, `Requested`, `Faults`, `Endings`, `Progress`,
  `Persistence`: what it means. `Wire` follows each offer, `Sources` each data source and `Devices` each
  device through the whole request trace; `SourceLife` says how long a source lives and whom it serves,
  `Requested` what is asked for, `Faults` why a type goes missing, and `Endings` how the client ends.
  `Progress` shows that the client, seen from one selection, refines the pipe reader;
  `Persistence` follows one copy from its event to its publication.
* `Compositor`, `Budget`, `Asked`, `NoSelfCopy`, `NeverAgain`, `OthersAreRead`, `Survival`: the client
  together with a compositor and other clients, as one transition system with queues in both directions;
  no selection is copied from ourselves, exactly when another client's is mistaken for our own, and the
  whole life of a copy in it.
* `MimeAccounting`, `MimeReferences`, `WriteTask`, `Reconnect`: parts that stand alone.

The assumptions on the outside are explicit. Offer identities are fresh (`History.FreshOffers`). Pipes
deliver what was written, in order, in chunks of at most 8192 bytes, and may break at any time
(`PipeReader.Deliverable`, `ClientRuns.Genuine`). For the theorems about the client with a compositor
(`NoSelfCopy`, `NeverAgain`, `OthersAreRead`, `Survival`) there are these as well (`Compositor.CanMove`):

* The compositor is first-in first-out, and sends the end of an old selection together with the new one.
* Before it answers a roundtrip it has handed on, for each current offer of ours that we asked for data, at
  least one receive request through a descriptor whose metadata we can read.
* Other clients may copy, clear and paste at any time. They may paste from any source of ours that was ever
  announced, through any descriptor, including one that we gave them to write to.
* Only for `OthersAreRead` and `Survival`: a new pipe differs from every pipe that is still on its way in
  either direction (`OthersAreRead.PipesAreNew`).

`ClientTheorems.EnvironmentsExist` shows that the oracle can be met, `Example.Story` that the assumptions
of `Persistence.ACopySurvives` can, and `JointStory.Story` those of `Survival.ACopySurvivesAmongOthers`,
each all together and from the start of a run.

## Where the code does not do what it says

* `src/wayland.rs:1136-1140` says that its `unreachable!()` cannot be triggered. It is triggered
  exactly when, while pipes of a selection wait for the roundtrip, their seat is announced anew under
  the same name and is left there without a selection event (`ClientTheorems.PanicsExactly`,
  `ClientTheorems.ReannouncedSeatPanics`). Without a new seat in the batch it is never reached.
* With read errors that are tolerated, the verdict on the size limit can depend on the order in which
  data and errors arrive: it is fixed exactly if everything fits, or what the unbroken pipes deliver does
  not, or one broken pipe is too long on its own (`BrokenPipes.DecidedExactly`). Otherwise some schedule
  reads to the end and some gives up (`BrokenPipes.VerdictsExactly`). Without read errors the verdict never
  depends on the order (`PipeReader.ScheduleIndependence`), and when errors are not tolerated the order
  does not decide whether reading completes (`BrokenPipes.IntolerantVerdict`).
* `src/wayland.rs:1142-1158` takes a pipe that came back for the mark of an offer of our own. It can be
  another client's: if that client passes the pipe on to a source of ours that was the selection before,
  and the compositor still serves it, the copy is dropped. That is the only way (`OthersAreRead.OthersAreRead`),
  and there is none if only the current selection can be pasted (`OthersAreRead.NoStalePastes`).
* The 500 ms of extra time for a write (`src/wayland.rs:40-42`) count from the start of the task if that
  is later than the shutdown request (`WriteTask.ExtraTimeCountsFromTheStart`).
* While connecting keeps failing, a shutdown request is honoured only in the pause between two attempts;
  with a pause of zero only the limit on attempts ends the program (`Reconnect.ShutdownNeedsAPause`).

## Model

| member | source | states |
|---|---|---|
| `Persistence.ACopySurvives` | src/wayland.rs:243-400 | a copied offer whose pipes can be made and read is published exactly once, all its types in order and each with exactly the bytes written for it, and the selection waits for the next one; whether its event arrives while the client is idle or during a roundtrip for other pipes, and whatever else the run does |
| `Example.Story` | src/wayland.rs:243-400 | all assumptions under which a copy survives can be met together, in a run from the start |
| `Persistence.NewSelectionIsAskedFor` | src/wayland.rs:1013-1101 | after a batch whose last word on a selection is a welcome offer, dispatched while idle or in a roundtrip, the client has asked for the data of its types and waits for a roundtrip |
| `Persistence.RoundtripLeadsToReading` | src/wayland.rs:1088-1161 | after the roundtrip an untouched selection is read through just those pipes, or dropped, according to whether one of them came back to us |
| `Persistence.MarkedExactly` | src/wayland.rs:1500-1517 | a pipe is marked as ours exactly if a send request for a source of the same selection came through it |
| `Persistence.BatchTakesUp` | src/wayland.rs:493-547 | a selection event for a welcome offer, anywhere in a batch and whatever waits for a roundtrip, makes the client look at that offer with all that was advertised for it |
| `Persistence.AllPipesMade` | src/wayland.rs:897-1000 | if pipes can be made there is exactly one for each advertised type other than "SAVE_TARGETS", for that one exactly if the settings want it, and no error |
| `Progress.ClientRefinesReader` | src/wayland.rs:261-347 | seen from one selection, every run is a run of its reader followed by at most one publication of what it has read |
| `Progress.WhatIsWrittenIsPublished` | src/wayland.rs:301-347 | a reading that ends without errors leads to one publication, or one held back, of everything written, or to none if that exceeds the limit |
| `Progress.RunsDeliverWhatIsWritten` | src/wayland.rs:301-320 | the deliveries a run makes to a selection form a possible schedule of its reader |
| `Progress.OriginStays` | src/wayland.rs:451-467 | while no event concerns a selection, the offer it stands for stays the same |
| `Progress.BatchPosts` | src/wayland.rs:349-397 | events that do not concern a selection leave it alone, or let it publish what it held back |
| `ClientTheorems.EveryPublicationIsFaithful` | src/wayland.rs:1680-1735 | every publication is of the offer of the latest selection event, a welcome one, at a time without unresolved offers; it has data for exactly the advertised types but "SAVE_TARGETS" (unless wanted) and the faulty ones, each exactly what was written |
| `ClientTheorems.OfferedInOrder` | src/wayland.rs:1692-1698 | the offered list is the advertised one with some positions left out: an increasing choice of positions that hits every position with data and no other |
| `Faults.TypesAreLostOnlyToFailures` | src/wayland.rs:917-958 | over every run, a wanted type that was advertised and is not offered again is one for which a pipe could not be made or broke |
| `ClientTheorems.PublicationIsAllOrNothing` | src/wayland.rs:1294-1301 | with ignore-event-on-error, or without errors, there are data for all advertised types but "SAVE_TARGETS", and for that one exactly if the settings want it; offered types and stored types agree and are not empty |
| `ClientTheorems.MemoryIsCapped` | src/wayland.rs:1201-1234 | wherever a run is suspended, names and buffers of a selection stay within the limit and the counters are their exact sums |
| `ClientTheorems.IdleMeansResolved` | src/wayland.rs:1013-1169 | when the loop has returned, every enabled selection waits, reads or holds data, and each pipe being read was requested from the current offer |
| `ClientTheorems.PanicsExactly` | src/wayland.rs:1119-1141 | the unreachable branches are reached if and only if a waiting seat is announced anew and left without a selection event |
| `ClientTheorems.NoPanicWithoutNewSeats` | src/wayland.rs:1135-1140 | a step that adds no waiting seat never makes the client panic |
| `ClientTheorems.ReannouncedSeatPanics` | src/wayland.rs:412-426 | one more announcement of a waiting seat is enough to get there |
| `ClientTheorems.RepeatsOnlyForNewSelections` | src/wayland.rs:1096-1101 | the loop asks for another roundtrip only if the last one brought a selection event of an enabled type |
| `ClientTheorems.RoundtripsAreFew` | src/wayland.rs:1096-1101 | the number of roundtrips in a row is at most one more than the selection events of enabled types dispatched in them |
| `ClientTheorems.FlagsComeFromSelections` | src/wayland.rs:512-515 | a flag is raised only by a selection event of that seat and enabled type |
| `Progress.NothingHeldBackIsForgotten` | src/wayland.rs:358-397 | data are held back only while an offer of the seat is unresolved, stay untouched until then, and are published once by the turn that ends that |
| `ClientTheorems.EnvironmentsExist` | src/wayland.rs:1014-1018 | iteration orders as the environment is assumed to supply them exist for every outcome of the pipes |
| `ClientRuns.RunsAreOk` | src/wayland.rs:243-400 | the invariant of the client holds throughout every legal run |
| `Endings.StopsExactlyWithoutManager` | src/wayland.rs:352-354 | over every run, the client has stopped if and only if an event removed a global that was no known seat but the manager |
| `Endings.SelectionsFollowSettings` | src/states.rs:88-113 | over every run, the seats are those announced and not removed since, and each has a regular selection exactly for the settings regular and both, and a primary one exactly for primary and both |
| `ClientRuns.SetClipboardPublishes` | src/wayland.rs:1680-1735 | publishing keeps the promise of a publication when its data are complete and no offer is unresolved |
| `ClientRuns.DeliverOk` | src/wayland.rs:306-345 | a delivery never panics, keeps the invariant, and leaves nothing to be published later without need |
| `ClientRuns.PublishAllOk` | src/wayland.rs:358-397 | after the publication loop nothing is held back without need |
| `ClientRuns.CollectOk` | src/wayland.rs:1388-1410 | the data gathered from finished pipes are exactly those of the pipes without error, each complete |
| `ClientInvariant.DispatchOk` | src/wayland.rs:405-619 | every callback keeps the invariant |
| `ClientInvariant.NamedOk` | src/wayland.rs:493-538 | a selection that starts to be read has the advertised list, its distinct types and their exact cost, and its offer is resolved |
| `Resolution.CreatePipesOk` | src/wayland.rs:897-999 | the created pipes are untouched, of distinct types, and cover every requested type that is neither skipped nor faulty |
| `Resolution.CreatePipesOutcomes` | src/wayland.rs:917-970 | a type is faulty only if its pipe could not be made, and pipes carry the identity they were made with |
| `Resolution.CreatePipesInOrder` | src/wayland.rs:900-987 | exactly which pipes are made and in which order: those of the requested types that can be opened, up to the first failure if failures make the event be ignored, and up to the end otherwise; the loop gives up exactly at such a failure |
| `Resolution.PrepareAllOk` | src/wayland.rs:1014-1075 | before the roundtrip every selection is settled or has pipes made for its own offer |
| `Resolution.ResolveAllOk` | src/wayland.rs:1103-1161 | after it every unflagged selection is settled, flagged ones are untouched, and a panic means an unflagged selection that is not being read |
| `Resolution.SlotEffect` | src/wayland.rs:405-619 | all that one event can do to one selection and its flag |
| `Wire.OffersAreUsedLinearly` | src/wayland.rs:468-615 | over every run, each offer is asked for data any number of times and then destroyed once, and lives exactly as long as one place holds it |
| `Wire.OnePlaceOnly` | src/states.rs:56-58 | an offer is in one pending table or one selection, never in two places |
| `Wire.RemovedSeatLeavesNothing` | src/states.rs:174-200 | removing a seat ends all its offers, each with its one destroy request |
| `Wire.SelectedSendsAbout` | src/wayland.rs:493-538 | what a selection event sends about an offer: its destruction if it was being looked at on that selection, or if it is the named offer and is declined, and nothing otherwise |
| `Wire.SelectedMoves` | src/wayland.rs:493-538 | a selection event takes exactly the named offer out of the pending table, and it is kept for reading exactly if it is not ignored |
| `Sources.SourcesAreUsedProperly` | src/wayland.rs:1691-1725 | over every run, the requests about a source are those of its creation followed by one destruction once it left the tables, and there are none about an unpublished source |
| `Sources.OfferedOnTheWire` | src/wayland.rs:1691-1725 | over every run, the requests about a published source are, by their positions in the trace: its creation, one offer for each offered type in order, one request that sets it for its seat and type, and at most one destruction |
| `SourceLife.DestroyedExactly` | src/wayland.rs:1639-1656 | over every run, a source is destroyed exactly if since its publication it was cancelled or its seat was added anew or removed |
| `SourceLife.EventServes` | src/wayland.rs:1464-1560 | a send request starts a task with the data of its type exactly if the descriptor is usable, the source has that type, and the pipe is not one the selection of the source is waiting on; no other event starts one |
| `SourceLife.StepAddsSources` | src/wayland.rs:243-400 | after its events a step only adds sources that are held: it starts no task and drops no source |
| `Sources.PastedIsCopied` | src/wayland.rs:1519-1560 | every write task carries exactly the bytes that the copied-from client wrote for the type |
| `Sources.SendFindsItsData` | src/wayland.rs:1519-1553 | a send request for an offered type always finds its data |
| `Devices.DevicesAreDestroyedOnce` | src/states.rs:195 | over every run, a device is destroyed exactly as often as a seat of its name goes away |
| `Devices.DevicesGoLast` | src/states.rs:174-195 | when a seat goes away its device is destroyed after everything that belongs to it, and sources after offers |
| `Asked.DispatchAsksNothing` | src/wayland.rs:405-619 | no callback asks for data: only the resolution loop does |
| `Requested.OnlyWelcomeTypesAreAsked` | src/wayland.rs:902-970 | over every run, data are asked for only of resolved and welcome offers, only for types they advertised, and for "SAVE_TARGETS" only if the settings want that |
| `Asked.ApplyAsked` | src/wayland.rs:962-970 | a selection that is being read remembers the identity of every pipe that was requested from its offer |
| `NeverAgain.StepThrifty` | src/wayland.rs:1142-1158 | a step of the client with its compositor never has more publications made or under way than foreign selections were dispatched |
| `NoSelfCopy.MoveOk` | src/wayland.rs:1087-1090 | every move of the compositor and of other clients, pastes from us included, keeps the invariant of client and compositor |
| `NeverAgain.OwnIsMarked` | src/wayland.rs:1500-1517 | an own offer left alone during the roundtrip is marked by the time the answer is dispatched |
| `NeverAgain.StepOk` | src/wayland.rs:1088-1161 | every step of the client keeps the invariant of client and compositor |
| `NeverAgain.NeverCopiesItself` | src/wayland.rs:1142-1158 | in every run with the compositor each publication is of another client's offer, and there are at most as many as other clients made selections |
| `NeverAgain.AtMostOncePerCopy` | src/wayland.rs:1142-1158 | after the last copy on a seat and type at most one more publication happens for it |
| `OthersAreRead.OthersAreRead` | src/wayland.rs:1142-1161 | in every run with the compositor a waiting selection of another client that is left alone is read, unless one of its pipes was passed back to a source of ours that is not the selection any more, and exactly then it is dropped |
| `OthersAreRead.NoStalePastes` | src/wayland.rs:1500-1517 | that does not happen with a compositor that lets other clients paste from the current selection only |
| `Survival.ACopySurvivesAmongOthers` | src/wayland.rs:243-400 | in every run with the compositor another client's copy that is left alone and read without error is published exactly once with all types and bytes, and every later publication is paid for by a later selection of another client |
| `Survival.NothingMoreIsPublished` | src/wayland.rs:1142-1158 | without a later copy nothing more is published for the seat and type, whatever our own announcement leads to |
| `Survival.ClientFollows` | src/wayland.rs:243-400 | seen from the client, every run with the compositor is a legal run |
| `JointStory.Story` | src/wayland.rs:243-400 | all assumptions under which a copy survives among other clients can be met together, in a run from the start |
| `MimeAccounting.AccountingIsExact` | src/wayland.rs:654-681 | the exceeded flag is set exactly when the distinct names are too long together; otherwise list and set are exactly what was advertised |
| `MimeAccounting.IgnoredExactly` | src/wayland.rs:693-780 | which offers are ignored, said of the advertised sequence alone |
| `MimeAccounting.OrderAndRepetitionDoNotMatter` | src/wayland.rs:654-681 | order and repetition of types change neither the flag nor whether the offer is ignored |
| `PipeReader.ScheduleIndependence` | src/wayland.rs:1187-1317 | without read errors every schedule with any restarts gives the verdict and data of reading each pipe to its end in turn |
| `ReadingTasks.ReadingResumes` | src/wayland.rs:1274-1288 | dropping the reader with all its tasks anywhere in a schedule, and making the tasks anew from the records, changes neither records nor counters nor verdict |
| `ReadingTasks.TasksNeverPanic` | src/wayland.rs:1192-1200 | whatever is polled and dropped, no task reaches its panicking branches, and there is a task for exactly the unfinished pipes |
| `ReadingTasks.TasksRefineReader` | src/wayland.rs:1187-1317 | tasks that are made, polled, dropped and made anew give the verdict and records of the reader specification after the same deliveries |
| `ReadingTasks.TasksReadEverything` | src/wayland.rs:1187-1317 | without read errors they come to the verdict and data of reading each pipe to its end in turn |
| `ReadingTasks.OneWakeUp` | src/wayland.rs:1274-1304 | entering the reader and serving one wake-up is one step of the specification |
| `PipeReader.WakeKeepsReaderOk` | src/wayland.rs:1278-1303 | records, counters and byte ledger stay in order, and the panicking branches are not reached |
| `PipeReader.NoUnderflowAndCapped` | src/wayland.rs:1201-1224 | taking a broken pipe off the counter cannot underflow, and names and buffers never pass the limit, also after the chunk that trips it |
| `PipeReader.ReadingMakesProgress` | src/wayland.rs:1290-1317 | some delivery is possible while a pipe is unfinished, and every delivery brings the end nearer |
| `PipeReader.WholeContentsAt` | src/wayland.rs:1388-1410 | the reference result has exactly one entry a pipe, with exactly its content |
| `BrokenPipes.VerdictsExactly` | src/wayland.rs:1201-1234 | with tolerated errors, exactly when some schedule completes and exactly when some exceeds the limit; no schedule ends otherwise, and the data of a complete reading are those of the unbroken pipes |
| `BrokenPipes.DecidedExactly` | src/wayland.rs:1201-1234 | the verdict is the same for all schedules if and only if everything fits, or the unbroken pipes alone are too long, or one broken pipe alone is |
| `BrokenPipes.TheVerdictCanDependOnTheSchedule` | src/wayland.rs:1220-1234 | a reader and two possible orders of the same deliveries that end in different verdicts |
| `BrokenPipes.IntolerantVerdict` | src/wayland.rs:1294-1297 | when errors are not tolerated reading completes exactly if no pipe breaks and everything fits, in any order |
| `BrokenPipes.SurvivingContentsAt` | src/wayland.rs:1388-1410 | the reference result has an entry exactly for each unbroken pipe, with its content |
| `ClientObjects.SelectionCell.Destroy` | src/states.rs:395-421 | destroys the offer of a selection that is being looked at, and nothing else |
| `ClientObjects.SelectionCell.Reset` | src/states.rs:300-305 | tears the state down and waits for new offers |
| `ClientObjects.SelectionCell.SwitchToReadMimes` | src/states.rs:308-326 | tears the state down and looks at the offer, without any pipe yet |
| `ClientObjects.SelectionCell.SwitchToGotPipes` | src/states.rs:329-352 | moves list and cost to a fresh reader and destroys the offer; leaves anything newer alone |
| `ClientObjects.SelectionCell.SwitchToGotData` | src/states.rs:355-376 | keeps the data, unless the state is already newer |
| `ClientObjects.SelectionCell.SwitchToGotClear` | src/states.rs:379-384 | tears the state down and notes the clearing |
| `ClientObjects.SelectionCell.SwitchToGotIgnoredEvent` | src/states.rs:387-392 | tears the state down and notes the ignored event |
| `ClientObjects.SelectionCell.MakeTasks` | src/wayland.rs:1274-1288 | there is a task for exactly the unfinished pipes |
| `ClientObjects.SelectionCell.StartTask` | src/wayland.rs:1192-1200 | the first poll of a task, with its panicking branch |
| `ClientObjects.SelectionCell.ReadPipe` | src/wayland.rs:1203-1304 | one pass of the read loop of a task, and what the loop over the tasks makes of its end |
| `ClientObjects.SelectionCell.ReadPipes` | src/wayland.rs:1264-1318 | the loop over the tasks, dropped and entered again from the records any number of times, follows its schedule of polls |
| `ClientObjects.SelectionCell.CollectData` | src/wayland.rs:1387-1410 | gathers the data of the pipes without error, or reports an impossible record |
| `ClientObjects.Seat.constructor` | src/states.rs:88-113 | a new seat has the enabled selections, waiting, and empty tables |
| `ClientObjects.Seat.AddOffer` | src/wayland.rs:469-491 | enters a new offer and destroys one of the same identity |
| `ClientObjects.Seat.AddType` | src/wayland.rs:654-681 | the offer advances as the accounting says |
| `ClientObjects.Seat.Select` | src/wayland.rs:493-602 | resolves the offer, raises the flag, switches the selection and sends the requests of the specification |
| `ClientObjects.Seat.DropSource` | src/wayland.rs:1639-1656 | destroys a cancelled source unless that has happened |
| `ClientObjects.Seat.MarkOwn` | src/wayland.rs:1500-1517 | marks a pipe of the current offer, and tells whether there was one |
| `ClientObjects.Seat.Destroy` | src/states.rs:174-200 | destroys offers, selections, sources and device, in that order |
| `ClientObjects.IsIgnored` | src/wayland.rs:693-780 | computes whether the offer is ignored |
| `ClientProgram.State.RemoveSeat` | src/wayland.rs:440-442 | takes a seat out and destroys it, leaving the others alone |
| `ClientProgram.State.OnSeatAdded` | src/wayland.rs:411-435 | replaces a seat of the same name by a new one |
| `ClientProgram.State.OnGlobalRemoved` | src/wayland.rs:440-446 | removes the seat, or notes that the manager is gone |
| `ClientProgram.State.OnDataOffer` | src/wayland.rs:456-491 | as specified, and nothing for an unknown seat |
| `ClientProgram.State.OnSelected` | src/wayland.rs:493-602 | as specified for either selection type |
| `ClientProgram.State.OnFinished` | src/wayland.rs:603-616 | removes the seat |
| `ClientProgram.State.OnOfferedType` | src/wayland.rs:627-681 | as specified, and nothing for an unknown seat or offer |
| `ClientProgram.State.OnSend` | src/wayland.rs:1464-1560 | marks our own pipe, ignores what cannot be served, or starts a write task |
| `ClientProgram.State.OnCancelled` | src/wayland.rs:1639-1676 | destroys the source at most once |
| `ClientProgram.State.DispatchOne` | src/wayland.rs:350-350 | dispatching an event changes the state as the specification says |
| `ClientLoop.CreatePipesForMimeTypes` | src/wayland.rs:803-999 | requests the pipes of `Resolution.CreatePipesInOrder`, one receive request each, and records all identities as not ours |
| `ClientLoop.PrepareSlots` | src/wayland.rs:1014-1075 | the first half of the loop over all selections |
| `ClientLoop.BeginRound` | src/wayland.rs:1077-1088 | clears the flags and asks for a roundtrip if there are pipes |
| `ClientLoop.ResolveSelections` | src/wayland.rs:1103-1161 | the second half of the loop, with its panics |
| `ClientLoop.PublishSelection` | src/wayland.rs:1680-1735 | creates, fills and sets a data source, with the requests of `Sources.OfferedOnTheWire`, and resets the selection |
| `ClientLoop.PublishAllDeferred` | src/wayland.rs:358-397 | publishes what is held back on seats without unresolved offers |
| `ClientLoop.HandlePipe` | src/wayland.rs:306-345 | what the main loop makes of a pipe that is ready |
| `MainLoop.HandleNewSelectionState` | src/wayland.rs:1009-1170 | the whole resolution loop follows the run of its wake-ups and ends |
| `MainLoop.RunWithConnection` | src/wayland.rs:243-400 | the main loop follows the run of its wake-ups |
| `MainLoop.RunFromStart` | src/wayland.rs:216-240 | a program started afresh reaches what the run reaches, so the theorems about runs hold of it, and it ends with the error of a removed manager exactly if an event said so |
| `MimeReferences.Advertise` | src/wayland.rs:658-681 | sharing or adding a type keeps one reference for the set and one for each occurrence in the list |
| `MimeReferences.PassOn` | src/wayland.rs:897-987 | handing the types from set to pipes to data keeps the counts right and drops the rest |
| `MimeReferences.TakeOne` | src/wayland.rs:1700-1705 | unwrapping a key succeeds exactly if the ordered list has no reference to it |
| `MimeReferences.DropOrdered` | src/wayland.rs:1692-1698 | using up the ordered list leaves each key as the only reference to its string |
| `MimeReferences.Unwrap` | src/wayland.rs:1701-1705 | once the ordered list is gone, unwrapping a key cannot fail |
| `MimeReferences.TakeStrings` | src/wayland.rs:1692-1705 | after the ordered list is used up every key is unwrapped, and nothing stays allocated |
| `MimeReferences.Life` | src/wayland.rs:1692-1705 | from the first advertised type to publication, or to being dropped at any stage before, all keys unwrap and the heap ends as it began |
| `MimeReferences.LifeOfSelection` | src/states.rs:258-296 | the same for the list, pipes and collected data of a selection: what is unwrapped are the keys of the data |
| `WriteTask.WritesPrefix` | src/wayland.rs:1552-1599 | what is written is a prefix of the data at all times, and all of it on success |
| `WriteTask.PollExactly` | src/wayland.rs:1562-1599 | a poll that gets as far as writing moves the cursor by what the pipe takes or by what is left, whichever is less, and ends the task with success if nothing is left, or else with an error if the pipe broke or took nothing; any other poll writes nothing |
| `WriteTask.DeliversWhatIsTaken` | src/wayland.rs:1552-1599 | exactly as much of the data comes out as the pipe took; the task ends successfully exactly if that is everything, and with an error only after a failed write |
| `WriteTask.DeliversInTime` | src/wayland.rs:1552-1599 | if the pipe takes all the data before the task is due, and never fails, all are delivered and the task says so |
| `WriteTask.EndsInTime` | src/wayland.rs:1562-1599 | the task ends by its deadline and 500 ms after shutdown or its start, and gives up for either reason only then |
| `WriteTask.DueMeansMoving` | src/wayland.rs:1563-1599 | a poll when the task is due ends its race |
| `WriteTask.ExtraTimeCountsFromTheStart` | src/wayland.rs:40-42 | counted from the shutdown request alone 500 ms suffice exactly for tasks started before it or with a near deadline |
| `WriteTask.WriteClipboardData` | src/wayland.rs:1552-1599 | the two races as a program deliver exactly the prefix that the pipe took, all of it on success, in time, and fail only after a failed write |
| `Reconnect.Run` | src/main.rs:49-187 | goes on after a round exactly if a lost connection or a failed connect may be tried again, exits with 0 exactly if that round was shut down, while connected or in the pause, and with 1 otherwise; its counter equals the failed connects in a row and stays below the limit |
| `Reconnect.ExitCodesExactly` | src/main.rs:49-187 | the same trichotomy of the exit code by which the laws on the limit are stated |
| `Reconnect.GivesUpAfterExactlyN` | src/main.rs:58-69 | with a limit of n at least 1 the program exits with code 1 after exactly n failed connects |
| `Reconnect.OnlyZeroNeverReconnects` | src/main.rs:126-153 | a program never gets past its first round exactly if the limit is 0 |
| `Reconnect.InfinitelyManyTries` | src/main.rs:58-113 | without a limit, no number of failed connects ends the program |
| `Reconnect.ShutdownNeedsAPause` | src/main.rs:58-113 | after a shutdown request the program makes more failing attempts exactly if the pause is zero and the limit allows them |

## Left out

* Connecting, binding globals and choosing between the two protocols: one abstract protocol is modelled. The first dispatch of the registry is part of the first batch of events.
* `wl_seat.release`, log output and signal handling: no influence on the selections.
* The meaning of the removed-manager flag: the source compares a global's name with an object's id, so the model lets any removal of a global that is no seat set it.
* The sort key of the request order: requests go out in an arbitrary order, which includes the sorted one.
* Reuse of object ids: identities stand for protocol objects and are never used twice in the model, so that a number the server uses again is a new identity.
* Events for seats that are gone: they are dropped, as in the source, and offers introduced on them are not followed.
* Widths of machine integers: byte totals and counters are unbounded.
* The callbacks of the two selection types are two copies of the same code in the source, and one with a parameter in the model.
* The regular expression: an arbitrary predicate on MIME types, with its error cases decided.
* Errors of the connection itself: a run may end anywhere, and `Reconnect` takes the way it ended as given.
* Zeroing of memory, and the closing of file descriptors that are not used: not part of what is delivered.
* Which MIME types a compositor advertises for our own selection: arbitrary in `Compositor`.
* ClientObjects.Seat.Destroy: does not model the release request of the seat object itself, because no later event or request depends on it.
* MainLoop.RunWithConnection: does not model what is left of the state after a panic, because it is lost with the program; only the fact is recorded.
* Scheduling inside the runtime: a batch of events, a roundtrip and a wake-up of one reading task are atomic, as the code between two suspension points is.
* Aliasing of offers between client and library: an offer is its identity.

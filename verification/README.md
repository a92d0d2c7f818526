# Verified model of the streaming daemon

The daemon starts a child process for each stream, watches it, records and serves HLS chunks, and answers control
requests. This project models the parts of it that decide something and proves what they promise.

* **Supervision** (`Supervisor`, `SupervisorSafety`, `SupervisorAccounting`, `SupervisorHistory`, `StreamController`).
  The supervising thread, the control thread, the running stream and the clock are one step system; outcomes of calls
  into other code and spurious wakeups are part of the steps. The object's methods are proved to be steps, and the
  theorems are about every run of the steps; what happened in a run is read off its events alone.
* **Watchdog** (`Watchdog`, `WatchdogHistory`, `BaseStream`). Byte counters, checkpoints and the one-second tick of a
  running stream, over every sequence of buffers, ticks and restarts, and when a run asks to quit in terms of the buffers
  it saw.
* **Timeshift** (`FileTree`, `Timeshift`, `TimeShiftInfo`). The recursive removal of old files from a directory tree, the
  choice of the chunk to play on that tree, and exactly when the first disturbs the second.
* **Playlists and names** (`M3u8`, `M3u8Files`, `M3u8RoundTrip`, `ChunkInfos`, `Names`, `Decimal`). The writer, the
  stateful reader with its line buffer and its seek, and the codecs for chunks and element names. The text follows
  RFC 8216: EXTINF in section 4.3.2.1, the media playlist tags in sections 4.3.3.1, 4.3.3.2 and 4.3.3.4.
* **Registry** (`Links`, `Registry`, `RegistrySafety`, `RegistryMeaning`, `Daemon`). Registered children,
  their pipe clients, closures queued from http threads, the tables of streams on demand, and the timer that stops idle
  ones; and what each handler means for a plain directory of streams.
* **Mosaic pipeline** (`Elements`, `Mosaic`, `MosaicBuilder`, `MosaicElements`, `MosaicPads`). The chains of elements a
  configuration stands for and which elements it wants, the builder that adds and links them, the links that follow when
  the decoders show their pads, and reachability, acyclicity and unique names in the result.
* **Probes** (`Probes`) and **configuration trees** (`ConfigTree`).

`Wrappers` and `Sequences` hold what several of them use.

Where the source updates state in place the model is a class or a method with the source's loops, proved against a
function of the old state; the theorems are about those functions.

## Reading the results

* The maximum number of restart attempts is a parameter of at least one, as the code demands; the value a configuration
  asks for is not delivered by the code that reads it.
* Any nonzero working time resets the attempts; runs of more than 600 s only differ in that they add no idle time.
* A stop is not always seen. The search for a timeshift chunk does not look at the flag: `SupervisorSafety.StopSeenIff`
  says that a stop takes effect within a bounded number of steps exactly when it does not find the supervisor in that
  search, and `SupervisorSafety.SearchReached` gives the run of a player that leads there.
* A stop has two halves: it sets the flag, and then posts a quit message to the stream. The message is lost, and the
  stream runs on with the flag set, exactly when it comes after the test of the flag and before the loop of the stream
  runs: `SupervisorSafety.LostStopIff`, with a run from the start in `SupervisorSafety.LostStop`.
* Nothing relates the lifetime of recorded files to the delay of a player; `TimeShiftInfos.CleanupOldestIff` covers
  lifetimes shorter than the delay.
* The playlist reader takes the index from the path. A chunk whose path does not end in its index is written without
  complaint and read back with another index or not at all, and so is a path of 255 characters or more, which the
  reader's line buffer cuts; `M3u8RoundTrip.RoundTripIff` has both as its condition.
* The pattern of recorded chunk names has an unescaped dot; `Names.HttpTsIndexIff` says what it accepts.
* Clocks are monotone. Times of the supervisor, the watchdog and the registry are in milliseconds; file times and the
  pace of ticks are in seconds.

## Model
| member | source | states |
|---|---|---|
| SupervisorSafety.CreationsAfterStop | src/stream/stream_controller.cpp:146-252 | In every interleaving of the supervisor, the stream, the control thread and the clock, at most one more stream is created once the stop flag is set, and none when it was set while a stream ran or during a backoff wait |
| SupervisorSafety.CommittedCanCreate | src/stream/stream_controller.cpp:146-178 | The bound is tight: from every state in which the supervisor has passed its test of the flag, including the search for a chunk, a run exists that still creates a stream |
| SupervisorSafety.ReturnsOnlyBecause | src/stream/stream_controller.cpp:146-235 | Exec returns only after stop was asked for, after a VOD run ended, or because a stream could not be created; and stop is only ever set by a stop request |
| SupervisorSafety.StopIsSeen | src/stream/stream_controller.cpp:146-252 | Outside its search for a chunk, also while it creates a stream, a supervisor that was asked to stop takes at most six more steps of its own before it returns, whatever the other threads do, and never enters the search again |
| SupervisorSafety.StopSeenIff | src/stream/stream_controller.cpp:146-252 | From every state with the flag set, the steps the supervisor still takes are bounded if and only if it is not looking for a chunk or waiting for one |
| SupervisorSafety.StopAlwaysSeenIff | src/stream/stream_controller.cpp:146-171 | Over all runs from the start every stop is seen within a bounded number of the supervisor steps if and only if the stream is no timeshift player |
| SupervisorSafety.SearchIgnoresStop | src/stream/stream_controller.cpp:151-165 | For any number of chunk durations there is a run in which the search goes on with the flag set and never tests it |
| SupervisorSafety.SearchReached | src/stream/stream_controller.cpp:146-152 | A run from the start of a player leads to that state: a stop right after the test of the flag |
| SupervisorSafety.QuitReachesLoop | src/stream/ibase_stream.cpp:491-532 | The second half of a stop leaves the loop asked to quit exactly when it finds the loop running |
| SupervisorSafety.LostStopIff | src/stream/stream_controller.cpp:178-181 | After both halves of a stop the stream can still run on, for any length of time, exactly when the second half came after the test of the flag and before the loop ran |
| SupervisorSafety.LostStop | src/stream/stream_controller.cpp:178-181 | For every configuration and every length of time there is a run from the start in which that happens |
| SupervisorAccounting.InvRun | src/stream/stream_controller.cpp:146-252 | The invariant that ties counter, status, waits and statistics to the log of what was observed holds over every run; idle time, restarts and the clock never go down |
| SupervisorHistory.HistoryOfEveryRun | src/stream/stream_controller.cpp:144-235 | The log, the clock, the status on show and the start times of every run are what its events say; a run of a pipeline failed exactly when it could not be started or when the first quit message its loop took was that of a failure or the end of a stream that is no VOD |
| SupervisorHistory.EveryEndOfRun | src/stream/stream_controller.cpp:183-219 | What follows a run, told from the events: a VOD is done; the n-th run in a row that failed without working time is followed by its wait, n * (60 / max) seconds, or 60 seconds and the status FROZEN for the last; after any other run the supervisor starts over at once with the attempts reset |
| SupervisorHistory.StatisticsMatchEvents | src/stream/stream_controller.cpp:197-231 | Over every run idle time is the working time of failed runs of at most 600 s plus each wait that ran out, restarts is the number of pipeline runs and interrupted chunk waits, all counted from the events, and idle time never exceeds elapsed time |
| SupervisorHistory.BackoffMatchesEvents | src/stream/stream_controller.cpp:202-231 | In every reachable state the attempt counter is the number of failed runs without working time in a row, and below the maximum; a wait that is due or under way is the one for that number, at most 60 s, no shorter than the one before it in its freeze cycle, and within the bound of the cycle |
| SupervisorHistory.WaitsOfEveryRun | src/stream/stream_controller.cpp:202-231 | The same bounds for every wait that ended |
| SupervisorHistory.WaitRunsOutIff | src/stream/stream_controller.cpp:157-162 | A wait, for a chunk or after a failure, can run out exactly when its seconds are over |
| SupervisorHistory.PlaceOfEveryRun | src/stream/stream_controller.cpp:146-235 | In every run the flag is set exactly when a stop was asked for, and the supervisor stands where its own last step leads: a search that finds the invalid index starts over, a test that finds the flag set returns, and so on for every step |
| SupervisorAccounting.CycleBound | src/stream/stream_controller.cpp:212-219 | A whole freeze cycle waits at most 30 * (max - 1) + 60 seconds |
| SupervisorAccounting.FrozenIsNoted | src/stream/stream_controller.cpp:213-216 | The status turns FROZEN exactly on the steps the log calls a freeze |
| SupervisorAccounting.RestartsAreEvents | src/stream/stream_controller.cpp:157-161 | restarts counts the pipelines that ran to their end and the chunk waits that were interrupted, and nothing else |
| StreamControllers.StreamController.AfterRun | src/stream/stream_controller.cpp:183-219 | The stretch of Exec after a run: classification, counter, status and wait are those of the step system |
| StreamControllers.StreamController.Exec | src/stream/stream_controller.cpp:144-235 | The whole of Exec, with its outer loop, the loop of the chunk search, break and continue: following any script of outcomes and of steps of the other parties it makes a run of the step system, and stops short of the end only where the script asks for a step that cannot happen |
| StreamControllers.StreamController.TestStop | src/stream/stream_controller.cpp:146-152 | The test of the flag, and what comes after it for a player and for other types, is one step of the system |
| StreamControllers.StreamController.SearchChunk | src/stream/stream_controller.cpp:152-171 | The outcome of a chunk search: wait, start over on the invalid index, or go on to create |
| StreamControllers.StreamController.CreateStream | src/stream/stream_controller.cpp:178-181 | A stream that cannot be created ends the supervision |
| StreamControllers.StreamController.LeaveChunkWait | src/stream/stream_controller.cpp:156-163 | A notified wait counts a restart and starts over; one that ran out searches again |
| StreamControllers.StreamController.LeaveBackoffWait | src/stream/stream_controller.cpp:224-231 | A notified wait resets the attempts; one that ran out is added to idle time |
| StreamControllers.StreamController.PostQuit | src/stream/ibase_stream.cpp:491-532 | A quit message ends a running loop once; before the loop runs and after it was quit the message is lost |
| StreamControllers.StreamController.OnPipelineEos | src/stream/stream_controller.cpp:460-466 | End of stream quits a VOD run as a success and any other as a failure |
| StreamControllers.StreamController.StopFlag | src/stream/stream_controller.cpp:237-244 | Stop sets the flag and wakes a waiting supervisor, and nobody else |
| StreamControllers.StreamController.RestartNotify | src/stream/stream_controller.cpp:246-252 | Restart wakes a waiting supervisor without setting the flag |
| StreamControllers.StreamController.StopStream | src/stream/stream_controller.cpp:417-421 | What follows either, outside the mutex: the stream there is, if any, is asked to quit |
| Watchdog.BytesConserved | src/base/channel_stats.cpp:55-82 | For every input and every output channel, through any sequence of buffers, ticks, checkpoints and restarts, the differences taken at checkpoints plus the current one are exactly the bytes credited to the channel, and its total grows by just those bytes |
| Watchdog.DivisorPositive | src/stream/ibase_stream.cpp:585-587 | The divisor of the rates is at least one at every tick of every run |
| Watchdog.CheckpointIsRecent | src/stream/ibase_stream.cpp:585-634 | In every run that has not asked to quit and has no udp or srt output, after each tick less than 61 s have passed since the last checkpoint |
| Watchdog.Throughput | src/stream/ibase_stream.cpp:42-43 | With ticks at most g seconds apart, a run that has not asked to quit T seconds after its start has received and sent at least 245760 bytes for each whole period of 60 + g seconds |
| Watchdog.StartRunJustStarts | src/stream/ibase_stream.cpp:344-347 | Whatever the counters held, the start of a run sets the checkpoint the throughput bound counts from |
| WatchdogHistory.QuitIff | src/stream/ibase_stream.cpp:585-634 | A run asks to quit exactly when one of its ticks came more than 60 whole seconds after the checkpoint and fewer than 245760 bytes had arrived since then on the input side, or on the output side of a stream without udp or srt outputs |
| WatchdogHistory.HealthyNeverQuits | src/stream/ibase_stream.cpp:585-634 | A run that brings 245760 bytes each way in every such period is left running for ever |
| WatchdogHistory.TickVerdict | src/stream/ibase_stream.cpp:585-634 | What a single tick decides, from the buffers and times before it: when to quit, when to move the checkpoint, and the rate of each channel as the whole quotient of its bytes and seconds |
| WatchdogHistory.ReadRun | src/base/stream_struct.cpp:89-96 | Through every run the time of the checkpoint and the bytes since then, of each channel and each side, are what the events say |
| BaseStreams.BaseStream.HandleMainTimerTick | src/stream/ibase_stream.cpp:585-634 | The whole tick: it refreshes every rate, adds up the differences, passes the verdict, and moves the checkpoint when enough was sent; it is one step of the system, or two when the checkpoint moves, keeps the invariant, and asks to quit exactly when the period is over with fewer than 245760 bytes in, or out of outputs none of which is udp or srt |
| BaseStreams.BaseStream.BeginTick | src/stream/ibase_stream.cpp:585-630 | The tick up to the reaction to enough output data, looping over both counter vectors, is one step |
| BaseStreams.BaseStream.ResetData | src/stream/ibase_stream.cpp:486-489 | ResetDataWait moves the deadline and every checkpoint of both vectors and nothing else |
| BaseStreams.BaseStream.OnOutputDataFailed | src/stream/ibase_stream.cpp:555-571 | Missing output quits the run unless some output is udp or srt |
| BaseStreams.BaseStream.UpdateInputProbeStats | src/stream/ibase_stream.cpp:834-839 | A buffer is credited to the channel of its id, and to none when there is no such channel |
| BaseStreams.BaseStream.UpdateOutputProbeStats | src/stream/ibase_stream.cpp:841-846 | The same for output channels |
| BaseStreams.CollectDiffs | src/stream/ibase_stream.cpp:589-606 | The loop of the tick returns the sum of all differences and leaves totals and checkpoints alone |
| BaseStreams.UpdateCheckPoints | src/base/stream_struct.cpp:89-96 | The loop over a vector puts every channel at its checkpoint |
| BaseStreams.MakeChannels | src/base/stream_struct.cpp:38-52 | One fresh counter at zero for each configured channel, under its id |
| BaseStreams.ChannelStats.UpdateBps | src/base/channel_stats.cpp:59-65 | The rate is the whole quotient of the difference, untouched for zero seconds |
| TimeShiftInfos.TimeShiftInfo.FindChunkToPlay | src/stream/timeshift.cpp:62-103 | For the folder on the disk, listed in any order and sorted in any way the comparison allows: nothing when no chunk ended strictly between D and D + 2d; else the first chunk that did when it ended at or after D + d or has no predecessor, and its predecessor when it ended before D + d |
| Timeshift.FindChunkToPlay | src/stream/timeshift.cpp:67-102 | The loop over the sorted files, for any times the unreadable files seem to have: it fails exactly when no chunk ended strictly between D and D + 2d, an index it returns belongs to a file of the folder, and on the sorted files it is that of the first chunk in that window or, when that one ended before D + d, of the one before it, unless that has the greatest index there is |
| Timeshift.PlaysListed | src/stream/timeshift.cpp:87-93 | Without repeated indexes the answer is the first chunk of the window or its predecessor, decided by its time alone |
| Timeshift.ChunkIndexIff | src/stream/timeshift.cpp:34-38 | Exactly the names of plain digits and .ts whose number fits are chunks, with that number as their index |
| TimeShiftInfos.SortIsListing | src/stream/timeshift.cpp:74-80 | Every sorted permutation of a scan of the folder is the listing, when no two chunks share an index |
| Timeshift.FindLastChunk | src/stream/timeshift.cpp:105-132 | The index and time of a chunk of greatest index, or nothing: only if there is no chunk or the time of such a chunk cannot be read |
| TimeShiftInfos.TimeShiftInfo.FindNearChunk | src/stream/timeshift.cpp:62-103 | With times monotone in the index, gaps of at most d and D within the recording, FindChunkToPlay answers with a chunk that ended at most d away from D |
| Timeshift.SelectAfterRemoval | src/stream/timeshift.cpp:67-102 | Removing any files not younger than D leaves the answer alone exactly when the predecessor it wants to play is not among them |
| Timeshift.SelectAfterOldestIff | src/stream/timeshift.cpp:67-102 | Removing the oldest files, however many, leaves the answer alone exactly when the chunk to be played is not among them |
| FileTree.FileSystem.RemoveOldFilesByTime | src/base/utils.cpp:112-171 | The recursive sweep removes exactly the reachable, removable .ts files with a readable time below the cutoff and changes nothing else, for every tree and every order of directory entries |
| FileTree.SweptIff | src/base/utils.cpp:112-171 | The same path by path: what goes has a name ending in .ts, a known time before the cutoff, and only open folders on its way |
| TimeShiftInfos.TimeShiftInfo.LookAcrossCleanup | src/server/process_slave_wrapper.cpp:335-340 | FindChunkToPlay, the sweep and FindChunkToPlay again, on one disk and at one second: for a lifetime that reaches back to D the two answers are equal exactly when the wanted predecessor is not swept; for every lifetime, in a removable recording with monotone times, exactly when the chunk to be played is not; and always with a regular recording and a lifetime of at least the delay plus one chunk |
| TimeShiftInfos.CleanupIff | src/server/process_slave_wrapper.cpp:335-340 | For every lifetime that reaches back to D, the sweep changes the answer exactly when it takes the wanted predecessor |
| TimeShiftInfos.CleanupOldestIff | src/server/process_slave_wrapper.cpp:335-340 | For every lifetime at all, when files can be removed and times are monotone, the sweep changes the answer exactly when it takes the chunk to be played |
| TimeShiftInfos.CleanupKeepsSelection | src/server/process_slave_wrapper.cpp:335-340 | With a lifetime of at least the delay plus one chunk and a regular recording the answer is unchanged |
| TimeShiftInfos.GapLosesSelection | src/stream/timeshift.cpp:76-102 | The bound on the gaps is needed: a concrete folder in which the sweep with that very lifetime changes the answer |
| M3u8RoundTrip.RoundTripIff | src/utils/m3u8_reader.cpp:37-183 | A written playlist is read back with the same sequence number, target duration, paths, indexes and durations within 5,000,000 ns exactly when the header numbers fit an int, every path ends in its index and has at most 254 characters, and there is a footer or a chunk; it covers longer paths, the empty list and lists still being recorded |
| M3u8Files.M3u8Writer.WriteHeader | src/utils/m3u8_writer.cpp:28-35 | The header of a playlist, letter by letter, with the two numbers in their places |
| M3u8Files.M3u8Writer.WriteLine | src/utils/m3u8_writer.cpp:37-41 | The two lines of a chunk, letter by letter |
| M3u8Files.M3u8Writer.WritePlaylist | src/utils/m3u8_writer.cpp:28-46 | The writer appends exactly the text of the playlist |
| M3u8.HeaderTextIs | src/utils/m3u8_writer.cpp:28-35 | The header of every playlist is that text |
| M3u8.ReadsHeader | src/utils/m3u8_reader.cpp:98-99 | The first line of the format is skipped |
| M3u8.SpacesAre | src/utils/m3u8_reader.cpp:46-63 | What counts as white space: the six characters of the C locale |
| M3u8.ReadsMediaSequence | src/utils/m3u8_reader.cpp:116-121 | A header line of that key and any digits sets the media sequence, or fails the file when the number does not fit an int |
| M3u8.ReadsTargetDuration | src/utils/m3u8_reader.cpp:122-127 | The same for the target duration |
| M3u8.ReadsVersion | src/utils/m3u8_reader.cpp:100-105 | The same for the version |
| M3u8.ReadsAllowCache | src/utils/m3u8_reader.cpp:106-115 | A header line of that key and any capitals sets the flag for YES, clears it for NO and fails the file for anything else |
| M3u8.OtherLineEndsHeader | src/utils/m3u8_reader.cpp:98-132 | Any other line, save the first one of the format, ends the header |
| M3u8.ReadsChunkHeader | src/utils/m3u8_reader.cpp:161-173 | The line before the path of a chunk gives the number between key and comma as its duration |
| M3u8.OtherChunkHeader | src/utils/m3u8_reader.cpp:161-173 | No other line does |
| M3u8Files.GetNonEmptyLine | src/utils/m3u8_reader.cpp:37-54 | The fgets loop finds the next line with a visible character and where it ends, or that there is none |
| M3u8Files.RemoveTrailingSpaces | src/utils/m3u8_reader.cpp:56-63 | Removes exactly the trailing white space and never runs an inked line empty |
| M3u8Files.M3u8Reader.ParseFile | src/utils/m3u8_reader.cpp:82-136 | The two-phase reader, with its member fields, file position and seek back, computes the parse of the text |
| M3u8Files.M3u8Reader.ParseHeader | src/utils/m3u8_reader.cpp:94-135 | The header loop, line by line, ends in a failure or at the position the chunk phase starts from |
| M3u8Files.M3u8Reader.ParseChunks | src/utils/m3u8_reader.cpp:138-183 | The chunk loop appends the chunks read and answers as the text demands |
| ChunkInfos.ConvertFromString | src/utils/chunk_info.cpp:41-77 | The character loop with its running line and field counter decodes at the first two colons |
| ChunkInfos.RoundTripIff | src/utils/chunk_info.cpp:37-77 | The text form, path, index and duration with colons between them, comes back unchanged exactly when the path has no colon, for all 64-bit indexes and durations |
| Names.ElementIdMatches | src/stream/stypes.cpp:80-96 | The regular expression has one way to match a name, and the id is the number it captures or an overflow |
| Names.ElementIdOfName | src/stream/stypes.cpp:80-96 | The id comes back from every name made of a plain stem |
| Elements.IdOfElement | src/stream/stypes.h:28-95 | GetElementId undoes each of the 36 templates the mosaic pipeline uses, for every 64-bit id |
| Elements.IdOfOther | src/stream/stypes.h:36-86 | GetElementId undoes each of the other templates |
| Elements.NameInjective | src/stream/stypes.h:28-95 | Two elements with one name have the same template and the same id |
| Names.HttpTsIndexIff | src/stream/stypes.cpp:217-240 | Exactly the names of the chunk shape whose number fits have an index; the unescaped dot stands for any character |
| Names.PlaylistIndexIff | src/utils/m3u8_reader.cpp:163-178 | The lazy pattern accepts exactly the chunk-name paths and captures their whole digit run |
| Names.GeneratedNameIndex | src/stream/stypes.cpp:217-240 | Both readers find the index of every generated chunk name, however far the padding is exceeded |
| Names.HttpTsNameIs | src/stream/stypes.h:95 | A generated name is the time stamp, an underscore, the index padded to five digits, and .ts |
| RegistrySafety.EveryReachableState | src/server/process_slave_wrapper.cpp:367-400 | In every state reachable from the start of the daemon, in every interleaving of the loop with any number of http threads: ids of registered children are distinct, their clients are distinct and registered, commands go to registered clients only, and the timer never stops a stream within its lifetime of an entry of the log that says it was created or served |
| RegistrySafety.RegistrySafe | src/server/process_slave_wrapper.cpp:548-615 | The invariant behind it holds over every run |
| RegistrySafety.InvStep | src/server/process_slave_wrapper.cpp:548-615 | Each single step keeps that invariant, whatever configuration a queued closure carries and wherever a new client is allocated |
| RegistrySafety.IdleIsStopped | src/server/process_slave_wrapper.cpp:320-334 | With checks at most g apart, a linked stream with a client that stays idle longer than its lifetime plus g was sent Stop when it had been idle for more than the lifetime but no more than g longer |
| RegistryMeaning.ServedIsSpared | src/server/process_slave_wrapper.cpp:592-602 | In every run from the start: when a queued closure of a stream on demand has run and the stream is registered afterwards, its time stamp is that very time, and whatever comes then the timer sends it no Stop until its lifetime has passed |
| RegistryMeaning.StartedIsSpared | src/server/process_slave_wrapper.cpp:685-706 | The same for a stream that was not registered before and is after a closure or a start request |
| RegistryMeaning.ClosureMeans | src/server/process_slave_wrapper.cpp:572-602 | On the directory of streams, a map by id: the closure queued first runs; it adds its stream when there is none of that id and a process came up, and then, for a stream on demand, sets its time stamp to the present; a segment adds nothing |
| RegistryMeaning.StartMeans | src/server/process_slave_wrapper.cpp:685-706 | A start request adds its stream when there is none of that id and a process came up |
| RegistryMeaning.RequestMeans | src/server/process_slave_wrapper.cpp:715-723 | A stop or restart request writes one request, under the next number, to the client of the stream of that id, and nothing without one |
| RegistryMeaning.ExitMeans | src/server/process_slave_wrapper.cpp:367-387 | An exited child is removed from the directory and nothing else changes |
| RegistryMeaning.LostMeans | src/server/process_slave_wrapper.cpp:492-520 | A lost client is removed, also from the stream that had it, and nothing else changes |
| RegistryMeaning.StopServiceMeans | src/server/process_slave_wrapper.cpp:641-654 | The stop handler sends each child that has a client one Stop, in their order, and no other; during a stop it does nothing |
| RegistryMeaning.TimerMeans | src/server/process_slave_wrapper.cpp:320-334 | A look of the timer, in any order of the table, stops exactly the streams of the table that have a client and were idle for longer than their lifetime |
| RegistryMeaning.HttpMeans | src/server/process_slave_wrapper.cpp:548-615 | What an http request is answered with and which closure it queues, case by case |
| RegistrySafety.SyncedTablesIff | src/server/process_slave_wrapper.cpp:1068-1073 | Whatever http requests come in between, once a sync is through each table maps a root to the last accepted configuration of its kind that lists it and to nothing else |
| Links.SyncTablesIff | src/server/process_slave_wrapper.cpp:1081-1120 | The same for the operations of the sync themselves, whatever the tables held before |
| Links.TablesDisjoint | src/server/process_slave_wrapper.cpp:1099-1119 | No configuration is in both tables after a sync |
| Daemon.ProcessSlaveWrapper.OnHttpRequest | src/server/process_slave_wrapper.cpp:548-615 | An http request queues the closure and gives the answer its table, extension and the VOD check call for |
| Daemon.ProcessSlaveWrapper.FindChildByID | src/server/process_slave_wrapper.cpp:389-400 | The loop finds the first child of an id, or none |
| Daemon.ProcessSlaveWrapper.CreateChildStream | src/server/process_slave_wrapper.cpp:685-706 | A stream is created exactly when the configuration is accepted, its id is free and a process comes up |
| Daemon.ProcessSlaveWrapper.RegisterChild | src/server/process_slave_wrapper_posix.cpp:162-175 | The parent registers client and child and links them |
| Daemon.ProcessSlaveWrapper.SendCommand | src/server/child.cpp:45-67 | Stop and Restart write one numbered request to a registered client, or nothing without one |
| Daemon.ProcessSlaveWrapper.WriteRequest | src/server/child.cpp:45-67 | The write demands a registered pipe client; every caller provides one |
| Daemon.ProcessSlaveWrapper.CommandStream | src/server/process_slave_wrapper.cpp:715-723 | Stop and restart requests reach the child of the id, and fail exactly when there is none |
| Daemon.ProcessSlaveWrapper.StopService | src/server/process_slave_wrapper.cpp:641-654 | The stop handler sends Stop to every child once and is ignored while a stop is in progress |
| Daemon.ProcessSlaveWrapper.ChildStatusChanged | src/server/process_slave_wrapper.cpp:367-387 | An exited child is removed; its client stays registered |
| Daemon.ProcessSlaveWrapper.CloseClient | src/server/process_slave_wrapper.cpp:492-520 | A client that cannot be read from is taken from its child before it is deleted |
| Daemon.ProcessSlaveWrapper.DaemonAccepted | src/server/process_slave_wrapper.cpp:290-292 | A daemon client connects at an address no client has |
| Daemon.ProcessSlaveWrapper.RunQueued | src/server/process_slave_wrapper.cpp:572-602 | The oldest closure creates the stream and refreshes the time stamp of its child |
| Daemon.ProcessSlaveWrapper.CheckCods | src/server/process_slave_wrapper.cpp:320-334 | The timer loop over the copied table, in any order, sends Stop to each overdue child |
| Daemon.ProcessSlaveWrapper.HandleRequestClientSyncService | src/server/process_slave_wrapper.cpp:1068-1075 | The sync handler is a run of the table operations, one locked operation a step |
| Daemon.ProcessSlaveWrapper.AddStreamLine | src/server/process_slave_wrapper.cpp:1081-1120 | The loop inserts a configuration under the root of each of its http outputs, in the table of its kind |
| Links.LinksHolderTS.Find | src/server/links_holder_ts.cpp:22-30 | The configuration of a root, or none |
| Links.LinksHolderTS.Insert | src/server/links_holder_ts.cpp:32-35 | The root maps to the configuration afterwards, every other root to what it did |
| Mosaic.SinksReached | src/stream/streams/builders/mosaic_stream_builder.cpp:70-383 | For any number of outputs every sink is reachable from the mixer of each medium the pipeline carries |
| Mosaic.SourcesReachSinks | src/stream/streams/mosaic_stream.cpp:137-212 | With all the links the decoders add, every input reaches every sink, for each medium |
| MosaicPads.OutputGraphFree | src/stream/streams/builders/mosaic_stream_builder.cpp:70-383 | Nothing the builder links ends in a queue behind a decoder, so each of them is free for its pad |
| MosaicPads.ShowPads | src/stream/streams/mosaic_stream.cpp:137-212 | Pad by pad, in any order and with any repetition, the handler adds exactly the link of each decoder and medium shown, and nothing for a medium the pipeline does not carry |
| MosaicPads.BuildAndRun | src/stream/streams/mosaic_stream.cpp:137-212 | Built and then shown any pads of its decoders, a pipeline holds no links but those of the full graph and no cycle; once every decoder has shown each medium it is the full graph |
| Mosaic.MosaicAcyclic | src/stream/streams/builders/mosaic_stream_builder.cpp:70-383 | No element of the pipeline feeds itself, before and after the decoders have shown their pads |
| MosaicElements.ElementIff | src/stream/streams/builders/mosaic_stream_builder.cpp:70-383 | The pipeline has an element exactly when the configuration wants it, for each of the 36 templates: the payloader for udp outputs only, the h264 parser for five encoders only, and so on |
| MosaicBuilder.Builder.InitPipeline | src/stream/streams/builders/mosaic_stream_builder.cpp:70-218 | For 1, 2, 4, 9 or 16 inputs the nested loops build exactly the graph of the configuration, with unique names and links between added elements only; for any other number nothing is built |
| MosaicBuilder.Builder.BuildOutput | src/stream/streams/builders/mosaic_stream_builder.cpp:220-383 | Each round adds exactly the chains of its output, whatever the order of adding |
| MosaicBuilder.Builder.BuildInputs | src/stream/streams/builders/mosaic_stream_builder.cpp:108-183 | The loops over rows and columns visit every input once |
| MosaicBuilder.Builder.BuildVideoStream | src/stream/streams/builders/mosaic_stream_builder.cpp:282-337 | The video branch of a stream output, through optional aspect ratio, frame rate, filters, payloader and parser, to the muxer |
| MosaicBuilder.Builder.BuildAudioStream | src/stream/streams/builders/mosaic_stream_builder.cpp:339-377 | The audio branch of a stream output, with the mp3 stages and the payloader where called for |
| MosaicBuilder.Builder.BuildVideoEncoder | src/stream/elements/encoders/video.cpp:55-96 | The loop over the text arguments adds a filter exactly for a profile and for a stream format of x264enc, in that order |
| MosaicBuilder.ProfileFirst | src/stream/elements/encoders/video.cpp:62-92 | In the order of the map the profile key comes before the stream format key |
| MosaicBuilder.Builder.BuildVideoConvert | src/stream/elements/encoders/video.cpp:214-231 | Converter and optional deinterlacer as one chain |
| MosaicBuilder.Builder.BuildVideoFramerate | src/stream/elements/encoders/video.cpp:122-137 | Rate and caps filter behind the given element |
| MosaicBuilder.Builder.BuildAudioConverters | src/stream/elements/encoders/audio.cpp:96-127 | Converter, optional caps filter and optional volume as one chain |
| MosaicBuilder.Builder.BuildMuxVideoScale | src/stream/streams/builders/mosaic_stream_builder.cpp:45-60 | Scaler and caps filter behind the given element |
| MosaicBuilder.Builder.ElementAdd | src/stream/ibase_builder.cpp:52-58 | The run-time check that the bin takes the element never fails, and no two elements of the pipeline share a name |
| MosaicBuilder.Builder.ElementLink | src/stream/ibase_builder.cpp:60-76 | The run-time check that both ends are in the pipeline never fails |
| MosaicBuilder.Builder.GetElementByName | src/stream/ibase_builder.cpp:41-50 | Looking an element up by name finds exactly the one that has it |
| MosaicBuilder.Builder.HandleDecodeBinPadAdded | src/stream/streams/mosaic_stream.cpp:137-212 | The number in a decoder name leads to the queue of the same input, which takes one link |
| Probes.EosIffNoLaterSegment | src/stream/probes.cpp:22-28 | Over every trace a probe is at end of stream exactly while no SEGMENT followed its last EOS, and in a segment otherwise |
| Probes.FlushingSeekNeverSeen | src/stream/probes.cpp:126-133 | No trace makes either kind of probe expect a flush and be flushing at once, so the warning about a segment inside a flushing seek is never given |
| Probes.FlagsOfEveryTrace | src/stream/probes.cpp:98-156 | Over every trace, which of the other flags are set: a stream start and a serialized event seen by input probes, a flush expected by output probes after a seek that asks for one |
| Probes.Probe.SawEvent | src/stream/probes.cpp:98-156 | The callbacks update the flags as the trace demands |
| Probes.CountEos | src/stream/ibase_stream.cpp:260-304 | The map-building loop returns the number of distinct ids all of whose probes are at end of stream |
| ConfigTree.RoundTripIff | src/base/stream_config_parse.cpp:23-139 | A value tree comes back from JSON unchanged exactly when none of its strings and keys has a NUL, in whatever order hashes are walked |
| ConfigTree.ReadTwice | src/base/stream_config_parse.cpp:23-139 | Every configuration read from JSON survives being written and read again |
| ConfigTree.JsonComesBackIff | src/base/stream_config_parse.cpp:23-139 | A JSON tree comes back unchanged exactly when its integers have 32 bits and its strings no NUL |
| ConfigTree.ReadKeepsPlaces | src/base/stream_config_parse.cpp:23-83 | Every place of a JSON tree is a place of the value read from it, with the same kind and content: integers held in 32 bits, strings cut at their first NUL |
| ConfigTree.MakeValueFromJson | src/base/stream_config_parse.cpp:23-83 | The method with the dispatch spelled out for object fields computes the plain recursion at every depth |
| ConfigTree.MakeJson | src/base/stream_config_parse.cpp:85-139 | The loops build a JSON tree of the value |
| ConfigTree.MakeConfigFromJson | src/base/stream_config_parse.cpp:160-167 | An object becomes the configuration of its fields, anything else none |

## Left out
- Watchdog.Throughput: stated for the instants right after a tick, because at an instant just before a tick the bytes of the period that is ending have not been judged yet; ticks are assumed at least a whole second apart in their bound g.
- Watchdog.CheckpointIsRecent: for runs without udp or srt outputs, for which the code deliberately neither quits nor moves the checkpoint.
- Timeshift.FindChunkToPlay: sorting is by its contract, any sorted permutation; for a file whose time cannot be read the code uses an uninitialised time, which is any value here, and the theorems about the listing are for folders without such chunks and without two chunks of one index.
- TimeShiftInfos.TimeShiftInfo.LookAcrossCleanup: nothing else touches the disk between the two looks.
- M3u8RoundTrip.RoundTripIff: durations are exact rationals printed with two digits, ties rounded to even; binary floating point and the cast of an overlong duration are not modelled.
- ChunkInfos.ConvertFromString: number fields are assumed to be plain decimal text, as in every use of the library's text conversions.
- Daemon.ProcessSlaveWrapper.HandleRequestClientSyncService: the method runs to its end; http requests between two of its table operations are modelled by the steps of `Registry`.
- MosaicBuilder.Builder.ElementAdd: elements are values of template and id; since each is added once under a unique name, its name stands for the object. Properties set on elements and the caps of filters are not modelled.
- MosaicBuilder.Builder.ElementLink: that the linked elements agree on a media format is not modelled.
- ConfigTree.MakeJson: the order of object fields in the printed text is not modelled, and doubles are reals.
- Wrap-around of byte totals at 2^64, and data races on counters between probe threads and the tick.
- StopStream reads the current stream outside the mutex; the read and the message are one step here.
- StreamController::RestartStream and IBaseStream::Restart are never called.
- Overrides that replace the watchdog's reactions: the timeshift player's OnInputDataFailed, the recorder's OnOutputDataFailed and the test stream's tick; the logging of desired bandwidth.
- The checks of a configuration (ValidateConfig, MakeStreamInfo) are an outcome of the step, and the flag inserted into a shared VOD configuration is not modelled.
- The value of the recorded chunk life time, which is read under the wrong key.
- The source decodebin builder, whose payloaders share a name, and the stages of the other pipelines.
- GStreamer itself, sockets, pipes, fork, the Windows process start, JSON-RPC text, statistics, licences and permissions.

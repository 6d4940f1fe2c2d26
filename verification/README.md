# trading-bridge: verified core

This project models the parts of the trading-bridge repository whose correctness is hard to see by
reading them, and proves what they promise. It covers the replay engine that turns a recorded day into
one ordered stream; the crash-safe tick and depth writers and the salvage of a day; the level-acceptance
state machine; pruned open-interest windows; the depth proxies; max pain; the volume profile; the
walk-forward and CSCV harness; and the smaller run-safety machines (the gap watchdog, the binary frame
splitters, alert suppression, and the broker clean-up with its transaction).

Each module follows one component:

| module | file | component |
|---|---|---|
| Seqs, Merging | Seqs.dfy, Merging.dfy | concatenation, a stable sort, first maxima, k-way merging |
| Replay | Replay.dfy | the replay engine |
| PartFiles | PartFiles.dfy | part-file names, consolidation, salvage |
| InstrumentJournal | InstrumentWriter.dfy | the tick writer under failures |
| DepthJournal | DepthWriter.dfy | the depth writer under failures |
| LarStudy | LevelMachine.dfy | the level-acceptance machine |
| ChainState | OiWindow.dfy | windowed changes of open interest |
| DepthProxies | DepthProxies.dfy | cancels, refills and vanishing walls from depth snapshots |
| MaxPain | MaxPain.dfy | max pain |
| VolumeProfile | VolumeProfile.dfy | point of control and value area |
| WalkForward | WalkForward.dfy | splits, purge, embargo, sweep |
| Cscv | Cscv.dfy | probability of backtest overfitting |
| Watchdog | Watchdog.dfy | the heartbeat watchdog |
| FrameSplitter | FrameSplitter.dfy | tick and depth frames |
| AlertDedup | AlertDedup.dfy | alert suppression |
| BrokerDedup | BrokerDedup.dfy | broker clean-up |

Objects that the source updates in place are classes, loops are methods with invariants, and each is
tied to a pure function of the inputs or of the old state; the theorems are about those functions, over
every run. Prices, sizes and metrics are reals; timestamps and counts are integers. Clocks, files, the
database, transports and failures are inputs: a run is a sequence of operations, each with what goes
wrong while it is carried out.

What the proofs found where the code and its documentation part:

- A daily file of distinct rows is in the order of writing if and only if its part names are. With no part
  number missing that means fewer than 10,000 parts; from the 10,000th on the file still holds every row,
  but not in order.
- Failures of a tick writer that are harmful, exactly: a batch that no part write puts in place; a batch that
  is in the open file, or in a part whose write raised after the rename, and is then written again; and open
  row groups that can be neither promoted nor renamed. A batch that is in place and then dropped by the retry
  is there once, so that is harmless. The daily file holds exactly the rows added if and only if no failure
  was harmful.
- If the parts directory cannot be made on the way to part mode, the exception leaves `flush` and nothing makes
  the directory again. The buffer stays for the next flush, which drops it, as every later flush does: no part
  is ever sealed, and closing replaces the daily file by an empty one.
- The depth writer counts a part whose write raised after the rename as dropped, although the part is in the
  daily file: the counter of written rows agrees with the disk if and only if that never happened.
- The pruned open-interest deque answers like the full history for every window up to one nanosecond more than
  the largest configured one, and for no wider one.
- A chain snapshot pairs window labels in configured order with windows in sorted order: every column
  shows the window it names if and only if the windows are configured in ascending order.
- The value area is not the smallest band around the point of control in general; it is, for every
  target, if and only if the band grown so far is at every size the heaviest one around it, as over a
  profile that falls away from the point of control.
- A side that trips the gap guard of the depth proxies also discards the trades the other side still
  needs; the traded quantity of the other side's next diff falls short by exactly those, and a run is given
  in which they come out as a cancellation.
- A negative embargo is not refused. As long as the test window starts inside the calendar, no further back
  than the train window, the split trains on a day it tests on; an embargo below minus the train size can
  wrap around the front of the calendar and keep the windows apart. Which splits are separate is decided
  for every embargo.
- A negative step is not refused either; the loop then never ends once a split fits.
- One configuration strictly best in every block has a probability of overfitting of zero, unless it is
  the only configuration: then it is one half.
- Foreign-key counts are kept by table name, so two columns of one table overwrite each other; the
  total is nevertheless zero exactly when nothing references the row.

## Model

| member | source | states |
|---|---|---|
| `Merging.HeapMergeAscending` | orderflow_engine/replayer/engine.py:277 | merging sorted lists by key alone comes out ordered by key and then by list |
| `Merging.AscendingUnique` | orderflow_engine/replayer/engine.py:265-266 | an ascending stream is determined by its members, so two ways of producing it agree |
| `Replay.KindOrderAtOneInstant` | orderflow_engine/replayer/engine.py:157-175 | at one timestamp ticks precede depth rows and depth rows precede events, while last-trade times stay below the sentinel |
| `Replay.KeyIsColumns` | orderflow_engine/replayer/engine.py:153-177 | one row's event comes before another's if and only if their columns say so: timestamp (missing 0), then last-trade time (missing -1) with ticks before depth rows before events, then security (missing -1), then place in the file |
| `Replay.EventCarries` | orderflow_engine/replayer/engine.py:150-176 | an event carries the row itself, under its own kind, timestamp and security |
| `Replay.RowsToEvents` | orderflow_engine/replayer/engine.py:130-178 | the loop yields the table's rows keyed and sorted, with the given global row indices or the enumeration |
| `Replay.SortedEventsInOrder` | orderflow_engine/replayer/engine.py:176-178 | one file's events come out strictly ascending and hold exactly its rows |
| `Replay.ReadSpan` | orderflow_engine/replayer/engine.py:217-220 | the rows read are exactly those of the row groups from the one that holds the first row needed to the one that holds the last, with the offset of the first |
| `Replay.ReadBound` | orderflow_engine/replayer/engine.py:217-220 | a read is at least the rows from the first to the last needed, and short of that plus its two end groups |
| `Replay.SliceReads` | orderflow_engine/replayer/engine.py:210-220 | from a file in time order a slice read loads the rows of the slice and less than two row groups more |
| `Replay.EndsReadAll` | orderflow_engine/replayer/engine.py:215-220 | as soon as both ends of a file lie in the slice the whole file is read |
| `Replay.PruneCovers` | orderflow_engine/replayer/engine.py:215-222 | filtering only the pruned span selects the rows that filtering the whole file would |
| `Replay.SliceEvents` | orderflow_engine/replayer/engine.py:210-223 | the pruned slice read equals converting the masked rows of the whole file |
| `Replay.SliceOfMeaning` | orderflow_engine/replayer/engine.py:210-223 | a slice holds exactly the rows whose timestamp lies in it, with their own row indices, in order |
| `Replay.SliceMergeMeaning` | orderflow_engine/replayer/engine.py:273-278 | a merged slice holds exactly the day's rows in its time range, in total order |
| `Replay.MergeSlice` | orderflow_engine/replayer/engine.py:273-278 | the loop over files, with empty slices dropped, gives that merge |
| `Replay.WholeDayMeaning` | orderflow_engine/replayer/engine.py:262-266 | the whole-day merge holds every recorded row exactly once and in strictly ascending order |
| `Replay.WholeDayOrder` | orderflow_engine/replayer/engine.py:262-278 | the merge delivers every row of the day once, in the order of the columns, rows that compare equal in the order of their files |
| `Replay.DayOrderUnique` | orderflow_engine/replayer/engine.py:262-278 | there is only one such order of a day |
| `Replay.BoundsIncrease` | orderflow_engine/replayer/engine.py:252-260 | slice bounds start at the first timestamp, strictly increase and end just past the last |
| `Replay.BoundsCover` | orderflow_engine/replayer/engine.py:252-260 | the slices cover every timestamp of the day |
| `Replay.SliceSize` | orderflow_engine/replayer/engine.py:256-260 | a slice holds at most step - 1 rows besides those at its lowest timestamp |
| `Replay.SliceMemory` | orderflow_engine/replayer/engine.py:252-260 | the same bound for the rows of a whole day kept for merging a slice |
| `Replay.EngineSlice` | orderflow_engine/replayer/engine.py:70 | a slice as the engine cuts it keeps fewer than 150,000 rows besides those that share its lowest timestamp, and there are no more slices than that many rows each need |
| `Replay.SliceMemoryDistinct` | orderflow_engine/replayer/engine.py:252-260 | with distinct timestamps no slice exceeds the target |
| `Replay.SliceTable` | orderflow_engine/replayer/engine.py:210-223 | and, less than two row groups more, for the table loaded from any one file in time order |
| `Replay.FileStreams` | orderflow_engine/replayer/engine.py:230-250 | unreadable and empty files are skipped, all others kept in order |
| `Replay.IterEvents` | orderflow_engine/replayer/engine.py:262-278 | the slice-by-slice stream is the whole-day merge, for every set of files and timestamps |
| `Replay.Drive` | orderflow_engine/replayer/engine.py:280-322 | the consumer is called once for every row of the day, with that row and its timestamp, in the order of the columns; each kind's count is the number of its rows; the span is the timestamps of two rows that bound all others |
| `Replay.Feed` | orderflow_engine/replayer/engine.py:290-308 | every event is delivered once, in order, and counted under its kind |
| `Replay.KindCounts` | orderflow_engine/replayer/engine.py:299-308 | the merge neither loses nor adds rows of any kind |
| `Replay.DaySpan` | orderflow_engine/replayer/engine.py:296-298 | the first and last event are rows of the day and bound every row |
| `PartFiles.NamesInOrder` | orderflow_engine/recorder/writer.py:249-251 | parts 1 to n sort by name into numeric order if and only if n is below 10,000 |
| `PartFiles.ListingInOrder` | orderflow_engine/recorder/writer.py:350-355 | sorting by name gives the order of writing if and only if every two names are in it |
| `PartFiles.GaplessInOrder` | orderflow_engine/recorder/writer.py:249-251 | with no number missing the names are in order if and only if there are fewer than 10,000 parts |
| `PartFiles.NumberedInOrder` | orderflow_engine/recorder/writer.py:249-251 | below part number 10,000 the names are in order whatever numbers are missing |
| `PartFiles.DailyInOrder` | orderflow_engine/recorder/writer.py:349-355 | the daily file is in the order of writing if and only if the names of the parts that hold rows are (rows being distinct) |
| `PartFiles.ListingKeepsRows` | orderflow_engine/recorder/writer.py:349-355 | the listing keeps every row however many parts there are |
| `PartFiles.StreamConsolidate` | orderflow_engine/recorder/writer.py:98-162 | every row of every readable part once, in order; all row groups but the last hold 65,536 to 131,071 rows; unreadable parts are reported |
| `PartFiles.CopyPart` | orderflow_engine/recorder/writer.py:133-153 | copying a part keeps written groups and buffer together equal to the rows seen |
| `PartFiles.ConsolidateParts` | orderflow_engine/recorder/writer.py:349-355 | the daily file is the parts' rows in listing order |
| `PartFiles.ConsolidateInstrument` | orderflow_engine/recorder/salvage.py:44-73 | salvage rebuilds the daily file from every intact part, moves exactly the corrupt ones, and leaves a day without parts alone |
| `PartFiles.SealedPartsIntact` | orderflow_engine/recorder/salvage.py:51-62 | salvage recovers all rows of sealed parts and quarantines none of them |
| `PartFiles.FullBatches` | orderflow_engine/recorder/writer.py:198-201 | rows that are only added fill every batch to the limit: batch i is the i-th lot of max_buffer rows |
| `InstrumentJournal.WrittenSettles` | orderflow_engine/recorder/writer.py:211-229 | one flush under any failure that does not leave it either keeps what is held and the batch, in order, or is one of the harmful failures, with what each leaves |
| `InstrumentJournal.StallAccounts` | orderflow_engine/recorder/writer.py:277-279 | a flush whose parts directory cannot be made loses the open row groups; its batch stays in the buffer |
| `InstrumentJournal.StallIsForGood` | orderflow_engine/recorder/writer.py:277-300 | the directory is missing in part mode if and only if some flush raised for it, and then no part is ever sealed |
| `InstrumentJournal.StallLosesDay` | orderflow_engine/recorder/writer.py:303-355 | after one such flush closing leaves an empty daily file, whatever was there before |
| `InstrumentJournal.JournalOfRun` | orderflow_engine/recorder/writer.py:198-300 | at every moment of every run the rows added are sealed parts, then open groups, then buffer, in order, exactly as long as no failure was harmful |
| `InstrumentJournal.CalmRun` | orderflow_engine/recorder/writer.py:207-247 | without failures nothing is harmful and the writer never leaves primary mode |
| `InstrumentJournal.RotationExact` | orderflow_engine/recorder/writer.py:233-247 | without failures, after n batches and with rotation every k row groups there are exactly n / k parts and n % k open row groups, part i being batches k(i-1)+1 to ki; without rotation there is never a part |
| `InstrumentJournal.CloseAfterRun` | orderflow_engine/recorder/writer.py:303-355 | unless the closing flush raises, the daily file holds exactly the distinct rows added if and only if no failure was harmful, then in order if and only if the part names are |
| `InstrumentJournal.CalmClose` | orderflow_engine/recorder/writer.py:303-355 | without failures the daily file is the rows added in order if and only if fewer than 10,000 parts were written |
| `InstrumentJournal.RepeatedRow` | orderflow_engine/recorder/writer.py:233-247 | a run whose sync fails after the write, and whose daily file holds the row twice |
| `InstrumentJournal.LostGroups` | orderflow_engine/recorder/writer.py:277-297 | a run whose open file can neither be written nor closed, and whose daily file lacks its row groups |
| `InstrumentJournal.CrashAfterRun` | orderflow_engine/recorder/writer.py:253-275 | after harmless failures a crash keeps a prefix of the rows added: short of fewer than rotate_after_rowgroups times max_buffer rows in primary mode, of at most the buffer in part mode |
| `InstrumentJournal.SalvageAfterCrash` | orderflow_engine/recorder/salvage.py:44-73 | salvaging after a crash gives all sealed rows, and that prefix while the names are in order |
| `InstrumentJournal.InstrumentWriter.constructor` | orderflow_engine/recorder/writer.py:168-195 | a new writer is empty, in primary mode, and not rotated |
| `InstrumentJournal.InstrumentWriter.Add` | orderflow_engine/recorder/writer.py:198-201 | a row is buffered and the buffer flushed at its limit; when the flush raises |
| `InstrumentJournal.InstrumentWriter.Flush` | orderflow_engine/recorder/writer.py:207-231 | the whole new state of a flush, failures included, and exactly when it raises |
| `InstrumentJournal.InstrumentWriter.WriteBuffer` | orderflow_engine/recorder/writer.py:211-229 | the try and except of a flush: primary, fall-back, dropped batches, and the directory that cannot be made |
| `InstrumentJournal.InstrumentWriter.FlushPart` | orderflow_engine/recorder/writer.py:299-300 | a part takes its number before it is written; it is in place unless the write fails before the rename or the directory is missing, and raises in those cases and when only the sync after it fails |
| `InstrumentJournal.InstrumentWriter.FlushPrimary` | orderflow_engine/recorder/writer.py:233-247 | one more row group, and a rotation at every k-th as RotationExact counts them |
| `InstrumentJournal.InstrumentWriter.RotatePrimary` | orderflow_engine/recorder/writer.py:253-275 | sealing the open file as the next part, and what each way of failing leaves, the writer still there or a used-up part number included |
| `InstrumentJournal.InstrumentWriter.EnterPartMode` | orderflow_engine/recorder/writer.py:277-297 | promoting or losing the open file on the way to part mode, or raising before it when the directory cannot be made |
| `InstrumentJournal.InstrumentWriter.Close` | orderflow_engine/recorder/writer.py:303-347 | the daily file from parts or from the open file; exactly when closing raises, which leaves the writer open, and the old daily file unless only the sync after the rename failed; closing twice changes nothing |
| `InstrumentJournal.InstrumentWriter.Gather` | orderflow_engine/recorder/writer.py:308-342 | the rows of the new daily file, none when nothing was written and the old file has rows; exactly when the last rotation raises |
| `DepthJournal.BooksOfRun` | orderflow_engine/recorder/depth_writer.py:60-84 | for every pattern of failed writes the rows added, cut into batches at the limit and at flushes, are split into those on disk, those lost and those buffered, and all counters agree |
| `DepthJournal.CountsAdd` | orderflow_engine/recorder/depth_writer.py:69-84 | every batch is counted once, as written or as dropped, and a batch on disk is counted as written unless its write raised |
| `DepthJournal.EveryRowOnce` | orderflow_engine/recorder/depth_writer.py:69-84 | batches on disk and lost batches together are the flushed rows, each once |
| `DepthJournal.PartPerBatch` | orderflow_engine/recorder/depth_writer.py:60-84 | if every part can be written part i is the i-th batch of rows |
| `DepthJournal.Conservation` | orderflow_engine/recorder/depth_writer.py:60-84 | rows added = rows written + rows dropped + rows buffered at every moment of every run; the rows on disk are as many as counted if and only if no write raised with its part in place |
| `DepthJournal.CloseAfterRun` | orderflow_engine/recorder/depth_writer.py:86-97 | the daily file holds exactly the rows of the batches on disk, in order if and only if the part names are in order |
| `DepthJournal.CalmClose` | orderflow_engine/recorder/depth_writer.py:86-97 | if every part can be written the daily file is the rows added in order if and only if there are fewer than 10,000 parts |
| `DepthJournal.DepthWriter.Add` | orderflow_engine/recorder/depth_writer.py:60-63 | buffering with a flush at the limit |
| `DepthJournal.DepthWriter.Flush` | orderflow_engine/recorder/depth_writer.py:69-84 | a part in place or not, its rows counted as written or as dropped; the buffer is empty either way |
| `DepthJournal.DepthWriter.Close` | orderflow_engine/recorder/depth_writer.py:86-97 | flush, then the daily file from the parts in listing order; when closing raises and what daily file that leaves |
| `LarStudy.MirrorStep` | orderflow_engine/research/lar_study.py:102-189 | with both sides written out, the machine on the other side takes the mirrored step from the mirrored state on the mirrored bar |
| `LarStudy.MirrorTheorem` | orderflow_engine/research/lar_study.py:102-189 | on every bar stream the machine on the other side of the mirrored level is the mirror image, transition for transition, with stop and trigger negated |
| `LarStudy.TransitionOfRun` | orderflow_engine/research/lar_study.py:102-189 | on every run each bar moves the machine exactly as the bars met in its present state and sequence say: for every state, an if-and-only-if on prices, volume, flow, refills and the timers for each state it can go to |
| `LarStudy.ReclaimedIff` | orderflow_engine/research/lar_study.py:163-169 | the level is reclaimed at a bar if and only if the last reclaim_K bars, all after the flip, closed inside and the sequence is not too long |
| `LarStudy.LoggedBar` | orderflow_engine/research/lar_study.py:94-97 | a bar is logged if and only if it moves the machine, with its time and the quality of its data |
| `LarStudy.ExtremeOfRun` | orderflow_engine/research/lar_study.py:139-144 | the sweep's extreme is the furthest price of the bars from the sweep to the absorption |
| `LarStudy.OutcomeOfRun` | orderflow_engine/research/lar_study.py:177-185 | the outcome is struck trigger_ticks beyond the swing of the bar that armed the machine, with the stop at that extreme |
| `LarStudy.LogOfRun` | orderflow_engine/research/lar_study.py:94-97 | every log is round trips between FAR and APPROACHING and then a straight walk down the chain, possibly ended by FAILED or EXPIRED |
| `LarStudy.TriggeredLog` | orderflow_engine/research/lar_study.py:177-185 | a triggered machine went through all eight transitions in order |
| `LarStudy.TriggerIsReachable` | orderflow_engine/research/lar_study.py:37-58 | with the study configuration ten bars take both kinds of level to TRIGGERED, with this stop and trigger |
| `LarStudy.SeqCountOfRun` | orderflow_engine/research/lar_study.py:113-117 | the sequence counter is the number of bars since the machine last was FAR, within total_expiry_bars |
| `LarStudy.ApproachToTrigger` | orderflow_engine/research/lar_study.py:113-185 | from approach to trigger there are at most total_expiry_bars bars |
| `LarStudy.LogIsCausal` | orderflow_engine/research/lar_study.py:99-107 | a terminal machine never changes and later bars never rewrite the log |
| `LarStudy.StopAndTrigger` | orderflow_engine/research/lar_study.py:177-185 | stop and trigger lie on opposite sides of the level, at least sweep_min_ticks + trigger_ticks ticks apart, and the risk unit is their distance |
| `LarStudy.LevelMachine.OnBar` | orderflow_engine/research/lar_study.py:102-189 | one bar takes the step of the specification, on either side |
| `LarStudy.FeedBars` | orderflow_engine/research/lar_study.py:335-343 | a machine fed a stream of bars ends as the run of the specification |
| `LarStudy.LevelMachine.MoveTo` | orderflow_engine/research/lar_study.py:94-97 | a transition is logged with its two states and the state's bar count restarts |
| `ChainState.PrunedAnswersLikeFull` | orderflow_engine/chain/state.py:24-51 | with ordered timestamps the pruned deque answers like the full history for every window up to the largest |
| `ChainState.AnswersIff` | orderflow_engine/chain/state.py:28-51 | the pruned deque answers like the full history on every ordered session if and only if the window is at most one nanosecond wider than the largest (at most zero when that is negative) |
| `ChainState.WiderDiffers` | orderflow_engine/chain/state.py:31-33 | for every largest window and every wider one, a session that is answered otherwise |
| `ChainState.LabelsMatchWindows` | orderflow_engine/chain/state.py:73-75 | every snapshot column shows the window its label names if and only if the windows are configured in ascending order |
| `ChainState.WindowsInNs` | orderflow_engine/chain/state.py:15 | the windows are the configured seconds in nanoseconds, ascending |
| `ChainState.UnsortedWindowsMislabel` | orderflow_engine/chain/state.py:73-75 | with 300 s before 60 s the 300 s column shows the 60 s change, and the two differ |
| `ChainState.PruneDeque` | orderflow_engine/chain/state.py:31-33 | the pruning loop removes from the front exactly what the recursive form removes |
| `ChainState.ScanDeque` | orderflow_engine/chain/state.py:44-50 | the scanning loop finds the base the recursive form finds |
| `ChainState.StrikeState.Update` | orderflow_engine/chain/state.py:24-37 | the observation joins the full history, and what is kept still answers for it |
| `ChainState.StrikeState.DeltaOi` | orderflow_engine/chain/state.py:39-51 | open interest now minus open interest as of the window's start in the full history, for every window that can be answered |
| `ChainState.StrikeState.SnapshotDeltas` | orderflow_engine/chain/state.py:68-77 | each column is the change over the window at its place in sorted order |
| `DepthProxies.TradedInDiff` | orderflow_engine/research/depth_proxies.py:93-161 | the traded quantity of a diff is the full history's less exactly the trades discarded by the other side's gap trip |
| `DepthProxies.TradedIsFullHistory` | orderflow_engine/research/depth_proxies.py:96-161 | it equals the full history's if and only if no discarded trade was at that price in the interval |
| `DepthProxies.TripHidesTrades` | orderflow_engine/research/depth_proxies.py:116-119 | a run whose ask side trips the gap guard, after which the bid reports as cancelled the three that were traded |
| `DepthProxies.DiffedEvents` | orderflow_engine/research/depth_proxies.py:124-152 | every cancel and refill is at a price quoted in both snapshots with the quantities between them; every wall is a quoted level of at least the 90th percentile, gone from inside the span and mostly untraded |
| `DepthProxies.SnapshotEvents` | orderflow_engine/research/depth_proxies.py:105-152 | a first snapshot and a gap trip add no events; any other adds only such events |
| `DepthProxies.RefillsOfRun` | orderflow_engine/research/depth_proxies.py:124-161 | on every run each refill answers one earlier removal of its side and price, both quoted before and after, fewer than k_refill snapshots back with no reset between, and no removal feeds two |
| `DepthProxies.EventsOfRun` | orderflow_engine/research/depth_proxies.py:105-152 | on every run a snapshot adds exactly the events that are due, in order of price and then the walls: the cancels and walls of its diff, and each refill of the oldest removal at its price that is unanswered, fewer than k_refill snapshots back and not cut off by a reset; and none on a first snapshot or a trip |
| `DepthProxies.RefillIsDue` | orderflow_engine/research/depth_proxies.py:132-143 | a price quoted before and now, near the best, whose quantity rose and where a removal can still be answered yields exactly one event, the refill of the oldest |
| `DepthProxies.FullOfRun` | orderflow_engine/research/depth_proxies.py:132-159 | at every moment of every run each removal that can still be answered is waiting, oldest first |
| `DepthProxies.P90Means` | orderflow_engine/research/depth_proxies.py:99-103 | the 90th percentile is one of the sizes, with at most nine tenths of the others below it and more than that many up to it; there is none below 50 sizes |
| `DepthProxies.SizesOfRun` | orderflow_engine/research/depth_proxies.py:109-112 | the sizes remembered are the last wall_lookback quantities of both sides' snapshots |
| `DepthProxies.NearBestMeans` | orderflow_engine/research/depth_proxies.py:120-137 | near the best means within near of a quoted price that no other beats |
| `DepthProxies.TradedAt` | orderflow_engine/research/depth_proxies.py:96-97 | the sum over trades at the price in the half-open interval |
| `DepthProxies.TradedSingle` | orderflow_engine/research/depth_proxies.py:96-97 | one trade counts in full if its price is the price and its time is after the earlier snapshot and not after the later |
| `DepthProxies.AgePending` | orderflow_engine/research/depth_proxies.py:153-159 | the ageing loop; FullOfRun says that it drops only removals that are too old |
| `DepthProxies.DiffPrices` | orderflow_engine/research/depth_proxies.py:124-143 | the loop over shared prices produces the specified events and pending removals |
| `DepthProxies.FindWalls` | orderflow_engine/research/depth_proxies.py:144-152 | the vanished levels inside the span that were large and mostly untraded |
| `DepthProxies.DepthProxyEngine.AddTrade` | orderflow_engine/research/depth_proxies.py:93-94 | a trade joins the log and nothing else changes |
| `DepthProxies.DepthProxyEngine.AddSnapshot` | orderflow_engine/research/depth_proxies.py:105-161 | the whole new state after a snapshot, first snapshots and gap trips included |
| `MaxPain.PayoutAffine` | orderflow_engine/chain/analytics.py:47-51 | between neighbouring strikes the payout is a straight line |
| `MaxPain.PayoutOutside` | orderflow_engine/chain/analytics.py:47-51 | beyond the outermost strikes the payout only grows |
| `MaxPain.RowPays` | orderflow_engine/chain/analytics.py:48-51 | a call costs its writers every point above its strike and nothing below, a put every point below and nothing above |
| `MaxPain.PaysIffExposed` | orderflow_engine/chain/analytics.py:48-51 | rows of calls alone, or of puts alone, pay something exactly where open interest is exposed: a call struck below the price, a put struck above it |
| `MaxPain.PaysMoreOut` | orderflow_engine/chain/analytics.py:48-51 | calls alone never pay less at a higher price and puts alone never less at a lower one |
| `MaxPain.PayoutSplits` | orderflow_engine/chain/analytics.py:47-51 | the payout is what the calls cost and what the puts cost, every row counted once |
| `MaxPain.SomeStrikeIsBest` | orderflow_engine/chain/analytics.py:42-53 | for every expiry price some listed strike pays out no more, so searching strikes is enough |
| `MaxPain.FillTables` | orderflow_engine/chain/analytics.py:34-41 | the two tables add up open interest by strike and right |
| `MaxPain.TablePayout` | orderflow_engine/chain/analytics.py:47-51 | the inner loops compute the table's payout |
| `MaxPain.Cheapest` | orderflow_engine/chain/analytics.py:45-53 | the lowest candidate that no candidate undercuts |
| `MaxPain.MaxPainStrike` | orderflow_engine/chain/analytics.py:32-54 | none without strikes; otherwise the lowest strike that no listed strike and no expiry price undercuts; for calls alone the lowest strike, for puts alone the highest that has open interest |
| `VolumeProfile.ExpandReaches` | orderflow_engine/levels/volume_profile.py:60-71 | the value area reaches its target or all bins, and without the end added last it falls short |
| `VolumeProfile.SmallestBand` | orderflow_engine/levels/volume_profile.py:60-71 | over a profile that falls away from the point of control no contiguous band of fewer bins, around it or anywhere else, reaches the target |
| `VolumeProfile.TiesGoUp` | orderflow_engine/levels/volume_profile.py:63-71 | over a profile that falls away alike on both sides every second step is a tie, and goes up |
| `VolumeProfile.NotSmallestInGeneral` | orderflow_engine/levels/volume_profile.py:6-8 | a profile whose value area takes four bins where three around the point of control reach the target |
| `VolumeProfile.SmallestIff` | orderflow_engine/levels/volume_profile.py:6-8 | the value area is the smallest band around the point of control, or of all bands, for every target if and only if at every size the band grown so far is the heaviest of them |
| `VolumeProfile.UnimodalIsHeaviest` | orderflow_engine/levels/volume_profile.py:60-71 | over a profile that falls away from the point of control the band grown so far is the heaviest of all bands of its size |
| `VolumeProfile.ValueArea` | orderflow_engine/levels/volume_profile.py:60-72 | the loop's band contains the point of control and holds the target volume whenever the total does |
| `VolumeProfile.PointOfControl` | orderflow_engine/levels/volume_profile.py:56-57 | the heaviest bin, the lowest-priced one on ties |
| `VolumeProfile.BinHolds` | orderflow_engine/levels/volume_profile.py:41-42 | a price lies in the bin it is put into |
| `VolumeProfile.SameBinIff` | orderflow_engine/levels/volume_profile.py:41-42 | bins begin at multiples of the size, and two prices share one if and only if no multiple separates them |
| `VolumeProfile.VolumeProfile.OnTrade` | orderflow_engine/levels/volume_profile.py:44-46 | every bin holds exactly the sizes of the trades priced in it |
| `VolumeProfile.VolumeProfile.Result` | orderflow_engine/levels/volume_profile.py:48-76 | the total is the volume traded, point of control and value area are as above for the given fraction of it, and the flagged nodes are exactly the levels that meet a positive threshold |
| `VolumeProfile.ProfileOf` | orderflow_engine/levels/volume_profile.py:48-76 | the same for any bins; empty exactly when there is no volume |
| `WalkForward.WalkForwardSplits` | orderflow_engine/research/walkforward.py:76-110 | the errors in their order; otherwise exactly the splits that fit the calendar, each at its place; and with a negative step no split, or no end exactly when every boundary fits |
| `WalkForward.SliceEnds` | orderflow_engine/research/walkforward.py:103-107 | negative slice ends count from the back and ends past the calendar are cut off |
| `WalkForward.BuildSplits` | orderflow_engine/research/walkforward.py:98-110 | the loop stops at the first boundary that no longer fits and misses none before it |
| `WalkForward.NegativeStepNeverEnds` | orderflow_engine/research/walkforward.py:99-109 | with a negative step every boundary fits once the first does |
| `WalkForward.NoLeak` | orderflow_engine/research/walkforward.py:76-110 | every split's train days precede its embargo days, which precede its test days; no window is short |
| `WalkForward.NegativeEmbargoLeaks` | orderflow_engine/research/walkforward.py:103-107 | with a negative embargo a split whose test window starts in the calendar, no further back than its train window, trains on a day it tests on |
| `WalkForward.SeparateExactly` | orderflow_engine/research/walkforward.py:103-107 | for every embargo a split keeps its windows apart if and only if a condition on the sizes alone holds |
| `WalkForward.WrappedEmbargoKeepsApart` | orderflow_engine/research/walkforward.py:103-107 | an embargo of minus six days that keeps the first split of ten days apart |
| `WalkForward.SeparateIff` | orderflow_engine/research/walkforward.py:76-110 | all splits keep their windows apart if and only if each meets that condition; from minus the train size up, if and only if the embargo is not negative or no split fits |
| `WalkForward.TestWindowsConsecutive` | orderflow_engine/research/walkforward.py:98-110 | with the default step the test windows laid end to end are a piece of the calendar that stops less than one window before its end |
| `WalkForward.PurgeThenEmbargo` | orderflow_engine/research/walkforward.py:113-140 | every trade chosen on has exited more than the embargo before any trade judged on is entered |
| `WalkForward.OpensAtQuarterPastNine` | orderflow_engine/research/walkforward.py:69-72 | the boundary of a day is 09:15 of that day in India |
| `WalkForward.ArgmaxIsFirst` | orderflow_engine/research/walkforward.py:250-252 | the chosen point is the earliest of the largest ones, infinity beating every number |
| `WalkForward.RowMeans` | orderflow_engine/research/walkforward.py:429-442 | the value of a row is the first declared value that none beats on the purged train trades, and its returns are those of its embargoed test trades |
| `WalkForward.WalkForwardSweep` | orderflow_engine/research/walkforward.py:409-455 | one row a split of the sessions considered, with the train-chosen value and its embargoed test returns, pooled in order; exactly when it fails, for every embargo |
| `WalkForward.ChoiceIsCausal` | orderflow_engine/research/walkforward.py:425-437 | whatever happens on or after a split's test day, or exits at or after its open, that split's chosen value stays the same |
| `Cscv.ChronologicalBlocks` | orderflow_engine/research/pbo.py:72-83 | the loop cuts the sorted days into contiguous slices that together are all of them |
| `Cscv.BlocksAreChronological` | orderflow_engine/research/pbo.py:72-83 | the blocks are in time order, hold every day once, the first ones taking one day of the remainder each, and none is empty exactly when there are enough days |
| `Cscv.CombinationsSound` | orderflow_engine/research/pbo.py:136 | every listed split is an ascending choice of half of the blocks |
| `Cscv.CombinationsComplete` | orderflow_engine/research/pbo.py:136 | every such choice is listed |
| `Cscv.CombinationsDistinct` | orderflow_engine/research/pbo.py:136 | no split is listed twice |
| `Cscv.SwapIsASplit` | orderflow_engine/research/pbo.py:136-137 | swapping the in-sample and out-of-sample halves gives a listed split, and swapping again the first one |
| `Cscv.EachBlockHalfInSample` | orderflow_engine/research/pbo.py:136-139 | each block is in sample in exactly half of the splits |
| `Cscv.HalvesAre` | orderflow_engine/research/pbo.py:137-139 | what a split is worth to a configuration: the sum over the chosen blocks in sample and over all the others out of sample, together its whole row |
| `Cscv.RankMeaning` | orderflow_engine/research/pbo.py:114-119 | twice the average rank is N + 1 with the lead of the worse over the better; so it runs from one to N and compares with the middle as the two numbers compare |
| `Cscv.LambdaSign` | orderflow_engine/research/pbo.py:141-142 | lambda is negative exactly when the rank is below (N + 1) / 2 and zero exactly when it equals it |
| `Cscv.NegativeMeans` | orderflow_engine/research/pbo.py:140-145 | a split counts against the study exactly when more configurations beat the in-sample best out of sample than it beats |
| `Cscv.SplitMeans` | orderflow_engine/research/pbo.py:137-145 | on the matrix itself: the star is the first configuration whose sum over the chosen blocks none exceeds; how many lie below and above it over the other blocks gives its odds, and when they are negative or zero |
| `Cscv.SplitOdds` | orderflow_engine/research/pbo.py:137-142 | one split's odds of the in-sample best by its out-of-sample rank |
| `Cscv.MeasureSplits` | orderflow_engine/research/pbo.py:133-142 | the loop measures every split once, in order |
| `Cscv.Cscv` | orderflow_engine/research/pbo.py:122-150 | refusal exactly below the guardrail or with an odd number of blocks, failure exactly without blocks or with a short row; otherwise the measure over all splits |
| `Cscv.PboInUnit` | orderflow_engine/research/pbo.py:144-146 | the measure lies between zero and one |
| `Cscv.PboBalances` | orderflow_engine/research/pbo.py:144-146 | turning every split's odds round turns the measure round |
| `Cscv.IdenticalIsHalf` | orderflow_engine/research/pbo.py:136-146 | it is one half when all configurations are identical |
| `Cscv.BestIsChosen` | orderflow_engine/research/pbo.py:138-142 | a configuration strictly best in every block is chosen in every split and stays best out of sample |
| `Cscv.BestEverywhereIsZero` | orderflow_engine/research/pbo.py:136-146 | the measure is then zero, or one half if it is the only configuration |
| `Watchdog.StepIsLocal` | orderflow_engine/recorder/watchdog.py:42-78 | every operation keeps the dictionaries consistent and acts on each instrument by itself |
| `Watchdog.TrackOfRun` | orderflow_engine/recorder/watchdog.py:42-69 | after any run an instrument's silence starts at its last packet or seed, and is open exactly when a poll since found it too long |
| `Watchdog.PacketReports` | orderflow_engine/recorder/watchdog.py:47-55 | a packet-closed gap runs from one packet or seed to the next with none between, and is longer than the threshold in a time-ordered run |
| `Watchdog.FirstLatePollOpens` | orderflow_engine/recorder/watchdog.py:57-69 | of the polls since, exactly the first late one opens the gap |
| `Watchdog.LongSilenceReportedOnce` | orderflow_engine/recorder/watchdog.py:47-69 | with polls at most P apart a silence longer than threshold + P is opened by exactly one poll and reported by the packet that ends it |
| `Watchdog.LongSilenceAtEnd` | orderflow_engine/recorder/watchdog.py:57-78 | with polls at most P apart a silence still longer than threshold + P at session end is reported once, open-ended |
| `Watchdog.ClosingReports` | orderflow_engine/recorder/watchdog.py:71-78 | at session end every open silence is reported once, from its start |
| `Watchdog.Heartbeat.Register` | orderflow_engine/recorder/watchdog.py:42-45 | a first registration seeds the instrument; later ones change nothing |
| `Watchdog.Heartbeat.OnPacket` | orderflow_engine/recorder/watchdog.py:47-55 | the packet's time is kept and an open gap closed and returned |
| `Watchdog.Heartbeat.Poll` | orderflow_engine/recorder/watchdog.py:57-69 | the loop opens the late instruments in order of registration and returns them |
| `Watchdog.Heartbeat.CloseAll` | orderflow_engine/recorder/watchdog.py:71-78 | one open-ended gap an open instrument, and none left open |
| `FrameSplitter.PacketLen` | orderflow_engine/recorder/parser.py:126-138 | a packet is never shorter than its header, so the walk advances |
| `FrameSplitter.ZeroLengthHeader` | orderflow_engine/recorder/parser.py:128-154 | a header that announces too little is resolved by its packet type |
| `FrameSplitter.WholeMeans` | orderflow_engine/recorder/depth_parser.py:67-80 | which packets are whole, by their bytes: the announced length with its least byte first, the lengths by type of tick packets, and 332 for depth packets |
| `FrameSplitter.SplitPackets` | orderflow_engine/recorder/parser.py:117-138 | whole packets come back as they are, whatever follows |
| `FrameSplitter.SplitUndoesConcat` | orderflow_engine/recorder/parser.py:117-138 | well-formed packets and a truncated one give exactly those packets, for both feeds |
| `FrameSplitter.SplitIsPrefix` | orderflow_engine/recorder/parser.py:117-138 | on any bytes the packets are whole and are the front of the input, and the rest starts with no whole packet |
| `FrameSplitter.SplitExact` | orderflow_engine/recorder/depth_parser.py:59-80 | these properties determine the packets: if and only if, for both feeds |
| `FrameSplitter.SplitFrame` | orderflow_engine/recorder/parser.py:117-138 | the offset loop computes that split for the tick feed |
| `FrameSplitter.SplitDepthFrame` | orderflow_engine/recorder/depth_parser.py:59-80 | the offset loop computes that split for the depth feed |
| `FrameSplitter.ParseDepthPacket` | orderflow_engine/recorder/depth_parser.py:83-128 | a depth row read level by level, a disconnect with its reason, another control event, or nothing for a packet too short |
| `FrameSplitter.DepthRoundTrip` | orderflow_engine/recorder/depth_parser.py:83-112 | parsing an encoded packet gives back every field, whatever its length field says |
| `FrameSplitter.DepthLayout` | orderflow_engine/recorder/depth_parser.py:93-112 | where every field of a depth packet lies, numbers with their least byte first |
| `FrameSplitter.ControlLayout` | orderflow_engine/recorder/depth_parser.py:114-128 | where the fields of a control packet lie |
| `FrameSplitter.ParseDepthFrame` | orderflow_engine/recorder/depth_parser.py:131-136 | what the split packets say, in order, those too short left out |
| `FrameSplitter.FrameRoundTrip` | orderflow_engine/recorder/depth_parser.py:59-112 | a frame of encoded rows cut off inside the next packet parses to exactly the rows sent in full |
| `AlertDedup.VerdictExact` | orderflow_engine/alerts/dedup.py:36-46 | a candidate passes exactly when sending it keeps spacing, cooldown, no repeat and the cap |
| `AlertDedup.ReasonExact` | orderflow_engine/alerts/dedup.py:36-46 | which guard holds a candidate back, by the alerts sent |
| `AlertDedup.RepeatMeans` | orderflow_engine/alerts/dedup.py:36-39 | two alerts repeat each other exactly when instrument, side and bar are the same |
| `AlertDedup.KeyIsPair` | orderflow_engine/alerts/dedup.py:21-22 | a cooldown key stands for one instrument and side while sides hold no separator |
| `AlertDedup.RunObeys` | orderflow_engine/alerts/dedup.py:36-78 | over any candidates in any time order, with restarts that reload the state file, everything sent obeys all four guards |
| `AlertDedup.RunObeysUnrestarted` | orderflow_engine/alerts/dedup.py:36-54 | without the state file everything sent obeys the guards until a restart |
| `AlertDedup.SentExactlyWhenAllowed` | orderflow_engine/alerts/run.py:87-99 | a deliverable candidate goes out exactly when the alerts sent with it would still obey them |
| `AlertDedup.ForgetfulRepeats` | orderflow_engine/alerts/dedup.py:33-34 | without the state file a restart lets the same alert out twice |
| `AlertDedup.GuardsHoldIff` | orderflow_engine/alerts/dedup.py:26-54 | everything sent obeys the guards on every run with restarts if and only if state is kept on disk or nothing may be sent |
| `AlertDedup.Deduper.constructor` | orderflow_engine/alerts/dedup.py:26-34 | memory comes from the state file when it is kept, present and readable, and is empty otherwise |
| `AlertDedup.Deduper.ShouldSend` | orderflow_engine/alerts/dedup.py:36-46 | the verdict and its reason, in the order of the guards |
| `AlertDedup.Deduper.Record` | orderflow_engine/alerts/dedup.py:48-54 | the sent alert is remembered, and saved when state is kept |
| `AlertDedup.SendAlerts` | orderflow_engine/alerts/run.py:87-99 | the loop over candidates records exactly the delivered ones |
| `BrokerDedup.TotalZeroMeansUnreferenced` | scripts/dedup_brokers.py:236-252 | a row's total is zero exactly when nothing references it, although counts can overwrite each other |
| `BrokerDedup.CountIsLast` | scripts/dedup_brokers.py:236-250 | a row's count for a table is the last one found, so a later column overwrites an earlier one |
| `BrokerDedup.LowerMeans` | scripts/dedup_brokers.py:278-280 | every capital letter becomes its small letter and nothing else changes |
| `BrokerDedup.LoadFkRefCounts` | scripts/dedup_brokers.py:236-252 | the loops fill every row's counts from all query results |
| `BrokerDedup.GroupsMean` | scripts/dedup_brokers.py:278-280 | grouping by user and lower-case broker loses and repeats no row and gives each key one group |
| `BrokerDedup.KeepAndRest` | scripts/dedup_brokers.py:291-303 | the kept row is the sacred one if present, and otherwise the first with no row of more references, or as many and newer, or as new and active where it is not; the rest is everything else and never the sacred row |
| `BrokerDedup.PlanPartitions` | scripts/dedup_brokers.py:264-328 | a plan has no aborts if and only if brokers are known and no two rows of a key are in each other's way; then keep, fix and delete partition the rows; deleted rows are unreferenced and never sacred |
| `BrokerDedup.OneKeptPerKey` | scripts/dedup_brokers.py:264-328 | without aborts each user and broker keeps exactly one row |
| `BrokerDedup.BuildPlan` | scripts/dedup_brokers.py:264-328 | the loops build that plan |
| `BrokerDedup.PlanOne` | scripts/dedup_brokers.py:282-327 | one group's keep, fix, deletes and aborts |
| `BrokerDedup.Database.ApplyPlan` | scripts/dedup_brokers.py:464-567 | refused with aborts; otherwise committed exactly when no statement fails and all checks pass; not committed means the table is as before |
| `BrokerDedup.Check` | scripts/dedup_brokers.py:502-559 | the loops decide the four checks before the commit |
| `BrokerDedup.DeleteTakesPlanned` | scripts/dedup_brokers.py:475-490 | the delete statement takes exactly as many rows as planned |
| `BrokerDedup.MutatedIsUnique` | scripts/dedup_brokers.py:475-512 | what a commit leaves has each user and broker once, in lower case and known |
| `BrokerDedup.ReferencesSurvive` | scripts/dedup_brokers.py:539-559 | every referenced row, and the sacred one, is still there |
| `BrokerDedup.ReferencedStay` | scripts/dedup_brokers.py:236-328 | with the loaded counts every row some reference points at is still there after the commit |
| `BrokerDedup.ChecksPassIff` | scripts/dedup_brokers.py:502-559 | the checks pass exactly when the sacred row is there as dhan and the strategies' references resolved to begin with |
| `BrokerDedup.CleanUp` | scripts/dedup_brokers.py:598-630 | from the counts to the commit: a commit leaves user and broker unique and every referenced row in place, any other ending leaves the table as it was; and exactly when it commits |

## Left out

- WalkForward.WalkForwardSweep: the profit-factor, Sharpe and plateau columns of a row and the trial Sharpe ratios are not modelled.
- FrameSplitter.ParseDepthPacket: a price stays its eight bytes.
- BrokerDedup.MutatedIsUnique: for the table the plan was made for; rows changed by others between planning and applying are caught only as far as the checks go.
- InstrumentJournal.InstrumentWriter.Flush: a batch that cannot be made into a table raises before anything is written; that is not modelled.
- Rows added to a writer after it was closed, closing again after closing raised, and a parts directory that is there when a writer starts or goes away while it runs.
- The event writer, which repeats the depth writer without drop counts, and the log and throttle text of all writers.
- Rounding of reported prices, lambdas and ratios, and floating-point error throughout.
- Tick packet bodies: fields are read at fixed offsets, which would only add easy members.
- Plateau shape, profit factor, Sharpe and deflated Sharpe ratios, and the permutation null.
- Building the CSCV matrix from trades, and the degradation cloud.
- The broker script's schema discovery, backup and printing; lower-casing of letters outside ASCII.
- The web application, broker adapters, order placement and configuration loading.

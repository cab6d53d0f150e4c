# Operating-systems assignments: a verified model

The repository holds the solutions of five operating-systems assignments. This project models the four
that keep state in a way that is hard to get right, and proves what they are for:

| component | files here | original |
|---|---|---|
| parallel directory search | `FileTree`, `Pfind`, `PfindInvariant`, `PfindMain`, `PfindConservation`, `PfindTheorems`, `PfindLosses`, `PfindProgress`, `PfindDecisions`, `PfindErrorRoute`, `PfindExit`, `PfindQueue` | `Assignment 4/Solution/pfind.c` |
| five-level page table | `Words`, `PageWords`, `PageTable`, `PageTableRuns`, `PageTableOs` | `Assignment 1/Solution/pt.c`, `os.c` |
| message slot device | `MessageSlotSpec`, `MessageSlotRuns`, `MessageSlotLimits`, `MessageSlot` | `Assignment 3/Solution/message_slot.c` |
| printable character server | `PccCounts`, `PccClients`, `PccSignals`, `PccServer` | `Assignment 5/Solution/pcc_server.c` |

`Basics` holds two shared types. `dafny verify dfyconfig.toml` checks everything.

**Search.** `threads_limit` workers and the main thread are interleaved in any order, one step for each
access to shared memory and each lock operation; `++` and `--` are a load and a store, so that lost
updates have to be excluded by the locks. A condition wait gives its mutex back and may end at any later
moment, signalled or not; signals therefore carry no state, and every result holds with any spurious or
lost wake-up. The tree is finite; `opendir` and `lstat` may fail at any entry, and after a failed `lstat`
the code goes on with stale metadata, so the entry is then taken for a file or for a directory with
anything in it. The pointer queue (`PfindQueue`) is proved to be the sequence that the step system uses.
Besides safety, `PfindProgress` proves that every state without an error has a continuation that ends in a
successful all-asleep test (in which main may be woken spuriously), `PfindLosses` what a search finds when
directories cannot be opened, and `PfindExit` exactly when exit code 0 can be trusted, with the runs in which
it cannot in `PfindErrorRoute`. `PfindDecisions` says what the threads decide in terms of the names they read and
of where the other threads are: what is counted, when main ends the search, that workers start and stop.

**Page table.** Words are numbers below 2^64 with the C operators defined bit by bit; the masks and shifts
of the walk are proved to pick base-512 digits. Memory is a table of zero-filled frames of 512 words, in
`PageTableOs` as arrays that the loops of `pt.c` walk and write in place, and in `PageTable` as a value
with a ghost tree shape. `PageTableRuns` compares any series of operations with a simple map.

**Message slot.** `MessageSlot` keeps the original's data: linked channels, the table of minors, the
pointer-valued counters, private data per open file. Each operation is proved to do what `MessageSlotSpec`
says on a map, and `MessageSlotRuns` proves what any interleaving of calls returns, from the history of
calls alone, error codes included.

**Server.** `PccServer` runs the service loop over any list of clients, each with an arbitrary outcome of
every socket call, while SIGINT may arrive at any statement boundary. One moment passes at each; the
signals, the clients and the first moment determine how the loop ends (`PccSignals.EndsAs`).

## Where the code and its documentation differ

- `threads_limit` 0: `check_thread_sleeping` succeeds at once, with the original directory still queued
  (`NoThreadsStopAtOnce`). The count is right at every successful test exactly when the limit is not 0 or
  there is nothing to find (`SleepTestSoundIff`). With a negative limit the test never succeeds.
- A `ppn` of 2^52 or more loses its high bits: an update reads back exactly when the number is below 2^52
  or is `NO_MAPPING` (`UpdateReadsBack`, with 2^52 as an input that fails in `WidePageNumberLost`). Only the
  low 45 bits of `vpn` matter (`SamePath`).
- `CHANNELS_LIMIT` is 1048576, but `numOfChannels` is an array of pointers, so each `++` adds 4 and the
  first channel adds 8: a slot gets 262143 channels and no more (`RefusedExactly`, `LimitComesEarly`).
- A read on a file whose channel does not exist dereferences NULL instead of returning `-EINVAL`
  (`ReadIsLatestWrite`, and a run in `ReadCanOops`); this cannot happen if the last `ioctl` on the file
  returned 0 (`SelectedIsSafe`). A channel whose number is a multiple of 2^32 can be selected, but never
  written (`SelectedIsSafe`, and a run in `SelectedButMute`).
- The server counts the text up to the first NUL, and its buffer is not terminated: it counts what the
  client sent exactly when nothing printable is cut off or follows (`CountsWhatWasSentIff`; inputs that fail
  either way in `CountsTooLittle` and `CountsTooMuch`).
- The server does not always stop at SIGINT: it goes on waiting for a client although the signal has been
  handled, if and only if the first signal comes between the last test of the loop and the call of `accept`
  (`MissedExactly`, with such a signal in `SignalIsMissed` and the server there in `MissedSignal`).
- Exit code 0 does not mean that the work is done: lines 218-224 of `pfind.c` can stop the search while a readable
  directory is queued and a living thread is asleep that could scan it. This is impossible exactly when the
  limit is 1 or negative, or is positive and the original directory lists nothing but dots
  (`ExitMeansDoneIff`); the search is complete at every exit with code 0 exactly when the limit is 1 or negative
  (`ExitMeansSettledIff`; with a negative limit main never exits). One directory that cannot be opened is
  enough (`ErrorRouteStopsEarly`). With one thread the exit code is 0 exactly if it has not failed
  (`OneThreadIsExact`). Without a failed thread the printed number is exact (`ReportIsExact`); without
  failures of `lstat` it is never too large (`ReportNotTooMuch`).

## Model

| member | source | states |
|---|---|---|
| PfindTheorems.SleepTestIsExact | Assignment 4/Solution/pfind.c:183-199 | in every interleaving, in every state in which main has the result 1 of `check_thread_sleeping`: no error, nobody scanning, empty queue, the counter is the number of matching files of the whole tree, each printed once, each directory scanned once |
| PfindTheorems.StaysSettled | Assignment 4/Solution/pfind.c:183-199 | and so it stays: after any further steps main still has the result 1, and all of that still holds |
| PfindTheorems.SleepTestSoundIff | Assignment 4/Solution/pfind.c:189-193 | the count is right at every successful all-asleep test if and only if the thread limit is not 0 or nothing matches |
| PfindTheorems.NoThreadsStopAtOnce | Assignment 4/Solution/pfind.c:310-337 | with limit 0 there is a run in which the test succeeds while the original directory is still queued |
| PfindTheorems.QuietIsSettled | Assignment 4/Solution/pfind.c:228-308 | a reachable state with no error, an empty queue and nobody at work has counted, printed and scanned everything exactly once |
| PfindTheorems.ReportIsExact | Assignment 4/Solution/pfind.c:473-501 | if no worker failed, the printed number is the number of matching files and the exit code is 0 |
| PfindTheorems.RunInv | Assignment 4/Solution/pfind.c:165-337 | every step of every thread keeps mutual exclusion, exact counters, no stranded work and sound verdicts of main |
| PfindTheorems.RunConserves | Assignment 4/Solution/pfind.c:340-437 | while nobody has met an error: accounted for, plus queued, plus still in the hands of workers, is the whole tree, for matches, for printed paths and for directories |
| PfindTheorems.FoldersArePartitioned | Assignment 4/Solution/pfind.c:243-276 | every directory is in exactly one place: scanned, queued, held by one worker, or undiscovered; no other path is in any |
| PfindTheorems.WorkIsNotStranded | Assignment 4/Solution/pfind.c:255-305 | before the end, a non-empty queue leaves some worker who is outside the sleep path, has met no error and will look at the queue again, unless a worker has failed or is about to |
| PfindTheorems.CountersAgree | Assignment 4/Solution/pfind.c:283-300 | after the start `sleeping_threads_available` is 1 plus the workers between increment and decrement, so between 1 and the limit plus 1; outside the errors lock `living_threads + thread_errors_cntr` is the limit |
| PfindTheorems.NoDeadlock | Assignment 4/Solution/pfind.c:234-302 | whenever a lock is held, some holder of a lock can take its next step |
| PfindTheorems.OneNesting | Assignment 4/Solution/pfind.c:290-302 | a worker takes a lock while it holds another only where it takes the sleeping mutex under the queue mutex; main never does |
| PfindProgress.CanAlwaysFinish | Assignment 4/Solution/pfind.c:473-491 | every reachable state without an error, with any positive limit, has a continuation that ends in a successful all-asleep test and a complete search |
| PfindProgress.SomeRunFinishes | Assignment 4/Solution/pfind.c:439-502 | for every tree, search string and positive limit some run completes the search |
| PfindProgress.SomeoneLeads | Assignment 4/Solution/pfind.c:228-337 | in every such state some thread has a step that brings the end closer: the start, then the work left, then main's test |
| PfindProgress.WorkerDescends | Assignment 4/Solution/pfind.c:243-437 | every step of a worker that does not rest lowers the work left, over the whole loop and every scan |
| PfindLosses.RunAccounts | Assignment 4/Solution/pfind.c:351-355 | whatever cannot be opened: accounted for, queued, held and lost below an unopened directory add up to the tree until the end, and never exceed it |
| PfindLosses.NeverTooMuch | Assignment 4/Solution/pfind.c:417-436 | counter, printed paths and scanned directories never exceed the reference result if `lstat` does not fail |
| PfindLosses.ReportNotTooMuch | Assignment 4/Solution/pfind.c:493-495 | nor does the number printed |
| PfindExit.ExitMeansDoneIff | Assignment 4/Solution/pfind.c:218-224 | exit code 0 implies an empty queue in every run if and only if the limit is not 0 and is at most 1, or not 0 and the original directory lists only `.` and `..` |
| PfindExit.ExitMeansSettledIff | Assignment 4/Solution/pfind.c:473-501 | exit code 0 implies a complete search in every run if and only if the limit is 1 or negative |
| PfindExit.OneThreadIsExact | Assignment 4/Solution/pfind.c:473-501 | with one thread: the exit code is 0 exactly if it has not failed; then the search is complete and the printed number right |
| PfindExit.NothingToLookAt | Assignment 4/Solution/pfind.c:364-371 | with a positive limit and nothing but dots in the original directory, nothing is queued when main exits, whatever fails |
| PfindExit.NoThreadsExit | Assignment 4/Solution/pfind.c:310-337 | with limit 0 some run exits with code 0 and the original directory queued |
| PfindErrorRoute.WorkIsLeft | Assignment 4/Solution/pfind.c:218-224 | with any limit of 2 or more and any entry that is not a dot, some run exits with code 0 and a directory queued |
| PfindErrorRoute.ErrorRouteStopsEarly | Assignment 4/Solution/pfind.c:218-224 | two threads, two directories, the first of which cannot be opened: a run that reports 0 files and exit code 0, with the one matching file in the queued second directory and a living thread asleep |
| PfindDecisions.EntryIsRead | Assignment 4/Solution/pfind.c:364-419 | what the worker does with an entry: never with `.` and `..`; a directory is queued; a file is counted if and only if its name is anything, then the search string, then anything; a failed `lstat` is remembered |
| PfindDecisions.EntryIsHandled | Assignment 4/Solution/pfind.c:357-433 | one entry from start to end: exactly one job at the end of the queue, or one more in the counter and one more path printed, or nothing, by the entry's name and kind |
| PfindDecisions.MainDecides | Assignment 4/Solution/pfind.c:201-226 | in every run, with no lock held: main's test alone ends the search if and only if the limit is not negative and every worker sleeps or has failed; the error flag is set if and only if all of them, and at least one, have failed |
| PfindDecisions.NobodyStartsEarly | Assignment 4/Solution/pfind.c:234-253 | no worker passes its start before all are created and let in, and none takes from the queue before main has counted itself |
| PfindDecisions.EndedIs | Assignment 4/Solution/pfind.c:493-493 | `run_ended` is set exactly once main has left its wait loop, and then nothing holds a worker at its two waits |
| PfindDecisions.WorkersStop | Assignment 4/Solution/pfind.c:246-305 | after that every worker takes at most 21 more steps, in every interleaving |
| PfindInvariant.WorkerStepInv | Assignment 4/Solution/pfind.c:228-308 | any step of any worker, with any answer of the file system, keeps the invariant |
| PfindInvariant.Exclusive | Assignment 4/Solution/pfind.c:254-257 | two workers are never inside the same critical section |
| PfindInvariant.ExclusiveMain | Assignment 4/Solution/pfind.c:316-319 | a worker and main are never inside the same critical section |
| PfindInvariant.NoLostUpdateKept | Assignment 4/Solution/pfind.c:268-271 | a value loaded by an increment or a decrement is still current when it is stored back |
| PfindInvariant.NotStrandedKept | Assignment 4/Solution/pfind.c:393-401 | a worker step keeps it so that a queued directory leaves a worker who will look at the queue again before it sleeps |
| PfindMain.MainStepInv | Assignment 4/Solution/pfind.c:473-502 | every step of main keeps the invariant, the creation of threads included |
| PfindMain.AsleepIsQuiet | Assignment 4/Solution/pfind.c:186-195 | the counter can only equal the limit plus 1 when nobody has failed, nobody works and, if there are workers, nothing is queued |
| PfindConservation.WorkerStepConserves | Assignment 4/Solution/pfind.c:357-437 | no worker step loses or doubles a file or a directory before an error shows |
| FileTree.MassCountsMatches | Assignment 4/Solution/pfind.c:417-428 | the recursive measure of a tree is the size of the multiset of its matching files |
| FileTree.MassLocatesMatches | Assignment 4/Solution/pfind.c:417-428 | and, path by path, how often each matching file occurs |
| FileTree.MassLocatesFolders | Assignment 4/Solution/pfind.c:381-395 | and, path by path, how often each directory occurs; `.` and `..` are not entered |
| FileTree.MatchingFilesAre | Assignment 4/Solution/pfind.c:364-419 | a path is a match if and only if its names lead through the tree, past no dots, to a file with the search string as a part of its name |
| FileTree.FoldersAre | Assignment 4/Solution/pfind.c:364-395 | a path is a directory of the search if and only if its names lead to one, past no dots |
| FileTree.AllFoldersDistinct | Assignment 4/Solution/pfind.c:364-371 | if no directory lists a name twice, no directory path occurs twice |
| PfindTheorems.QueueIsFifo | Assignment 4/Solution/pfind.c:54-93 | every step of every thread leaves the queue alone, takes its first directory or adds one at its end: what `Enqueue` and `Dequeue` do to their sequence |
| PfindQueue.Queue.constructor | Assignment 4/Solution/pfind.c:47-52 | a new queue is empty and well formed |
| PfindQueue.Queue.Enqueue | Assignment 4/Solution/pfind.c:55-70 | the key goes to the end of the sequence; the old nodes stay, one fresh node follows them |
| PfindQueue.Queue.Dequeue | Assignment 4/Solution/pfind.c:73-93 | NULL exactly on the empty sequence, else its first key; keys returned followed by keys held are the keys given |
| PageTableRuns.QueriesAgree | Assignment 1/Solution/pt.c:34-97 | after any series of updates through any roots, every query answers what a map keyed by root and low 45 bits of `vpn` answers |
| PageTableRuns.QueryIsLastUpdate | Assignment 1/Solution/pt.c:34-97 | told from the series alone: a query answers all ones if the page was never updated or its last update said all ones, else the low 52 bits of what that update said |
| PageTableRuns.UpdateReadsBack | Assignment 1/Solution/pt.c:58-66 | a query after an update returns the number given if and only if it is below 2^52 or is `NO_MAPPING` |
| PageTableRuns.WidePageNumberLost | Assignment 1/Solution/pt.c:61-63 | mapping page number 2^52 succeeds, and the query answers 0 |
| PageTableRuns.UpdateIsLocal | Assignment 1/Solution/pt.c:34-68 | an update changes no query through another root and none for other low 45 bits |
| PageTableRuns.FramesExactly | Assignment 1/Solution/pt.c:43-56 | the frames in use are the roots, one for each page table asked for, plus the distinct symbol prefixes of length 1 to 4 ever updated, unmaps included |
| PageTableRuns.RunsExactly | Assignment 1/Solution/os.c:17-36 | a legal series runs through if and only if the page tables asked for and the distinct prefixes updated are at most 1024 * 1024 together |
| PageTableRuns.UpdateFrames | Assignment 1/Solution/pt.c:43-56 | an update takes at most 4 frames, and none if its four-symbol prefix was visited before |
| PageTableRuns.NeverFaults | Assignment 1/Solution/os.c:17-48 | no access leaves the allocated frames; the run ends for want of memory exactly when the map model counts too many frames |
| PageTableRuns.OneMore | Assignment 1/Solution/pt.c:34-68 | one more update through a known root is legal, gives out no root, and succeeds exactly when the map model has room |
| PageTableRuns.RunMatches | Assignment 1/Solution/pt.c:34-68 | after any series of operations frames, tree shape, leaves and map belong together |
| PageTable.UpdateKeeps | Assignment 1/Solution/pt.c:34-68 | one update keeps the trees, changes the mapping at one key and adds exactly the missing frames, or fails exactly when these do not fit |
| PageTable.DescendKeeps | Assignment 1/Solution/pt.c:43-56 | the loop ends at the frame of its path and adds exactly the missing ancestors |
| PageTable.TouchKeeps | Assignment 1/Solution/pt.c:44-51 | one iteration keeps every inner entry zero or odd and naming the one frame at that place |
| PageTable.StoreKeeps | Assignment 1/Solution/pt.c:58-66 | the leaf store changes the mapping at one key; invalid leaves may keep non-zero words |
| PageTable.OneParent | Assignment 1/Solution/pt.c:43-51 | two inner entries that name the same frame are the same entry, so no frame sits at two places |
| PageTable.HasParent | Assignment 1/Solution/pt.c:43-51 | a frame is named by an entry of a frame one level up if and only if it is not a root |
| PageTable.QueryIsLookup | Assignment 1/Solution/pt.c:70-97 | the walk of a query answers what the mapping says; the `== 0` test and the valid-bit test agree on inner nodes |
| PageTable.RootKeeps | Assignment 1/Solution/os.c:17-36 | a fresh root adds a tree of its own and no mapping |
| PageWords.PathIsDigits | Assignment 1/Solution/pt.c:35-39 | the symbols of the walk are the base-512 digits of the low 45 bits, most significant first |
| PageWords.SamePath | Assignment 1/Solution/pt.c:53-55 | two page numbers follow the same path if and only if their low 45 bits agree |
| PageWords.SymbolValue | Assignment 1/Solution/pt.c:39-39 | mask and shift give bits 36 to 44 |
| PageWords.PageOf | Assignment 1/Solution/pt.c:53-53 | masking the low 12 bits and shifting gives the page number of an entry |
| PageWords.EntryOf | Assignment 1/Solution/pt.c:62-62 | an entry keeps the low 52 bits of the page number and has its valid bit set |
| PageWords.ClearValidBit | Assignment 1/Solution/pt.c:60-60 | the two shifts clear the valid bit and nothing else |
| PageTableOs.Os.AllocPageFrame | Assignment 1/Solution/os.c:17-36 | the next number and a fresh zeroed page, or failure exactly at `NPAGES` |
| PageTableOs.Os.PhysToVirt | Assignment 1/Solution/os.c:38-48 | the page and the byte offset of an address; NULL plus the offset for a page below `NPAGES` never allocated, NULL beyond `NPAGES` |
| PageTableOs.Os.NewTable | Assignment 1/Solution/os.c:52-52 | a fresh root: one new zero frame after the old ones, an empty tree of its own, the mapping unchanged |
| PageTableOs.TryPageTable | Assignment 1/Solution/os.c:50-61 | the program of `os.c`: its three queries return 2^64 - 1, 0xf00d and 2^64 - 1, as its assertions say |
| PageTable.RoomForUpdate | Assignment 1/Solution/os.c:17-36 | with room for four frames an update succeeds, and takes no more |
| PageTableOs.Os.PageTableUpdate | Assignment 1/Solution/pt.c:34-68 | the in-place loop does to the arrays what the value model does, keeps the trees and assigns one key |
| PageTableOs.Os.PageTableQuery | Assignment 1/Solution/pt.c:70-97 | the loop returns what the mapping holds, 2^64 - 1 if nothing |
| PageTableOs.Os.NextLevel | Assignment 1/Solution/pt.c:43-53 | the loop body leads to the page one level down, and what is left of the walk does the rest |
| PageTableOs.Os.FollowOrAllocate | Assignment 1/Solution/pt.c:44-51 | one iteration writes one word into the node and allocates one frame, if the entry is 0 |
| PageTableOs.Os.WriteLeaf | Assignment 1/Solution/pt.c:58-66 | the last lines write one word, the number above the valid bit or the old word without it, and assign one key |
| MessageSlotRuns.ReadIsLatestWrite | Assignment 3/Solution/message_slot.c:226-267 | in any interleaving on any files, a read returns the bytes of the latest successful write to the same minor and id modulo 2^32, and -22, -90, -11, -28 or -14 exactly where the history says, a fault of the user's buffer included |
| MessageSlotRuns.ReadCanOops | Assignment 3/Solution/message_slot.c:242-243 | a read right after `open` dereferences NULL |
| MessageSlotRuns.WriteSucceedsWhen | Assignment 3/Solution/message_slot.c:269-306 | a write succeeds exactly with a buffer, a length of 1 to 128, a non-zero id and an existing channel; else it returns -22 or -90, in the order of the code |
| MessageSlotRuns.OpenAndReleaseReturn | Assignment 3/Solution/message_slot.c:185-224 | `open` and `release` return 0 in any run |
| MessageSlotRuns.ChannelIs | Assignment 3/Solution/message_slot.c:292-304 | a channel exists exactly if some `ioctl` that returned 0 selected it, and holds the latest message written to it |
| MessageSlotRuns.FileIs | Assignment 3/Solution/message_slot.c:185-222 | an open file has the minor it was opened on and the last number selected, and its minor has a slot |
| MessageSlotRuns.SelectedExists | Assignment 3/Solution/message_slot.c:342-385 | the channel of a file whose last `ioctl` returned 0 exists |
| MessageSlotRuns.SelectedIsSafe | Assignment 3/Solution/message_slot.c:242-248 | on such a file no read or write dereferences NULL, and a write of 1 to 128 bytes succeeds exactly if the id is not 0 |
| MessageSlotRuns.SelectedButMute | Assignment 3/Solution/message_slot.c:272-281 | after open, selecting channel 2^32 returns 0 and writing one byte to it returns -22 |
| MessageSlotLimits.IoctlReturns | Assignment 3/Solution/message_slot.c:316-390 | in any run: -22 for 0 or another command than 0x4008F000, 0 exactly if the channel exists or the slot has fewer than 262143, else -1 |
| MessageSlotLimits.RefusedExactly | Assignment 3/Solution/message_slot.c:363-370 | a new channel is refused if and only if the slot has 262143 of them |
| MessageSlotLimits.LimitComesEarly | Assignment 3/Solution/message_slot.h:13-13 | a run that is refused its channel number 262144, far below the limit of the header |
| MessageSlotLimits.RunInBounds | Assignment 3/Solution/message_slot.c:342-382 | in any run each slot has at most 262143 channels, 32-bit ids and messages of at most 128 bytes |
| MessageSlotSpec.DriversUpdate | Assignment 3/Solution/message_slot.c:200-218 | creating a slot adds one to the number of minors with a slot, and there was room for it |
| MessageSlot.FindChannel | Assignment 3/Solution/message_slot.c:165-175 | NULL exactly when no node of the list has the id, else a node with it |
| MessageSlot.AddNode | Assignment 3/Solution/message_slot.c:177-183 | the list gets the node at its end; all earlier channels keep their place, id, size and message |
| MessageSlot.Devices.constructor | Assignment 3/Solution/message_slot.c:392-408 | after loading no minor has a slot and all counters are 0 |
| MessageSlot.Devices.OpenSlot | Assignment 3/Solution/message_slot.c:200-221 | the first open of a minor creates its slot; `-ENOSPC` is never returned, since the driver count is the number of slots |
| MessageSlot.Devices.SelectChannel | Assignment 3/Solution/message_slot.c:330-385 | finds or creates the channel as the map model says, with the limit test on the pointer counter |
| MessageSlot.Devices.CreateFirst | Assignment 3/Solution/message_slot.c:342-358 | the first channel of a slot; the counter is advanced twice |
| MessageSlot.Devices.CreateNext | Assignment 3/Solution/message_slot.c:363-382 | one more channel; the counter is advanced once |
| MessageSlot.Devices.Finalize | Assignment 3/Solution/message_slot.c:410-438 | exactly the channels and slots there are, each freed once (`KFree` takes only what is allocated), size and id of every channel reset before; the driver count returns to 0 |
| MessageSlot.Module.DeviceOpen | Assignment 3/Solution/message_slot.c:185-224 | as the map model, and 0; the file gets private data of its own, which starts with an arbitrary channel number |
| MessageSlot.Module.Ioctl | Assignment 3/Solution/message_slot.c:316-390 | as the map model; the number is stored in the private data even where the call then fails |
| MessageSlot.Module.DeviceWrite | Assignment 3/Solution/message_slot.c:269-306 | as the map model, for any length and any buffer; the bytes that can be copied become the message of one channel |
| MessageSlot.Module.DeviceRead | Assignment 3/Solution/message_slot.c:226-267 | as the map model, for any length and any buffer; the message overwrites the start of the buffer and nothing else, up to the first byte that faults, or NULL is dereferenced; the device stays as it was |
| MessageSlot.Conversation | Assignment 3/Solution/message_slot.c:185-306 | two files opened on one minor, the same channel selected on both: what is written through one is read through the other, by the code |
| MessageSlot.Module.DeviceRelease | Assignment 3/Solution/message_slot.c:308-314 | the file is closed; slots and messages stay |
| PccServer.Server.MessageLoop | Assignment 5/Solution/pcc_server.c:127-247 | under any signals: how many clients are served and how the loop ends is what signals, clients and time determine; each total is, modulo 2^32, how often its character occurs in the texts of exactly the committed clients; the totals and the committed replies have the same sum modulo 2^32; no commit after the handler |
| PccServer.SignalIsMissed | Assignment 5/Solution/pcc_server.c:134-144 | no clients and one signal, right after the first loop test: the loop ends in waiting |
| PccServer.MissedSignal | Assignment 5/Solution/pcc_server.c:134-144 | the server itself in that case: the loop waits at moment 1, the signal has arrived just before, and `sigint` is set |
| PccSignals.EndIsUnique | Assignment 5/Solution/pcc_server.c:134-247 | signals, clients and the first moment determine the exit and the number of clients served |
| PccSignals.ReturnsOne | Assignment 5/Solution/pcc_server.c:151-243 | the loop returns 1 if and only if a client taken before any signal has a failed `accept`, or a fatal error after calls that went through |
| PccClients.FateIs | Assignment 5/Solution/pcc_server.c:151-243 | committed are exactly the clients with whom every call went through or was interrupted; the loop breaks exactly at a failed `accept` or a first failure that is fatal |
| PccClients.CommittedFrom | Assignment 5/Solution/pcc_server.c:215-237 | one client more adds its text and the number it was told exactly in that case |
| PccSignals.SignalInService | Assignment 5/Solution/pcc_server.c:152-243 | a first signal during the service of a client: that client is served to its end, and nobody after it |
| PccSignals.SignalInAccept | Assignment 5/Solution/pcc_server.c:134-151 | a first signal between the loop test and the test after `accept`: the client that was accepted is not served |
| PccSignals.MissedExactly | Assignment 5/Solution/pcc_server.c:134-144 | the loop waits although a signal came before `accept` if and only if no client ends it and the first signal comes right after its last test |
| PccServer.Server.Serve | Assignment 5/Solution/pcc_server.c:152-243 | under any signals: if every call of the client went through or was interrupted, each of the 95 counters grows by its character's occurrences, modulo 2^32, and the client is committed; else the totals stay; the loop ends exactly at a failed `accept` or a fatal first failure; `client_flow` is 0 again |
| PccServer.Server.Answer | Assignment 5/Solution/pcc_server.c:215-243 | the second half: count, send, then commit or roll back; the totals grow by the client's text or stay, as the `send` says |
| PccServer.Server.CountChars | Assignment 5/Solution/pcc_server.c:98-113 | adds the occurrences of each of the characters 32 to 126 before the NUL to its counter, modulo 2^32, and returns the number of printable ones |
| PccServer.Server.DuplicatePccTotal | Assignment 5/Solution/pcc_server.c:115-125 | both tables become the committed one (mode 0) or the temporary one (mode 1) |
| PccServer.Server.SigintHandler | Assignment 5/Solution/pcc_server.c:249-253 | sets the flag exactly when no client is in service |
| PccServer.Server.Tick | Assignment 5/Solution/pcc_server.c:137-148 | a signal is handled at once if unblocked, else kept pending; the handler never sees `client_flow` 1 |
| PccServer.Server.Unblock | Assignment 5/Solution/pcc_server.c:240-243 | a pending signal is delivered, and no signal is lost |
| PccClients.TotalsAreReplies | Assignment 5/Solution/pcc_server.c:215-237 | the 95 totals of any table that counts the committed clients, and the numbers these were sent, have the same sum modulo 2^32 |
| PccSignals.LogGrows | Assignment 5/Solution/pcc_server.c:249-253 | a handler outside service, or a commit before any handler, keeps the order of the log |
| PccCounts.PrintableIsSum | Assignment 5/Solution/pcc_server.c:104-109 | the number returned for a client is the sum of its 95 increments |
| PccCounts.CountIsMultiplicity | Assignment 5/Solution/pcc_server.c:102-108 | a count is how often the byte occurs |
| PccCounts.CountsWhatWasSentIff | Assignment 5/Solution/pcc_server.c:186-216 | every character is counted as often as sent if and only if nothing printable follows a NUL in the client's bytes, or, without a NUL, lies behind them in memory |
| PccCounts.CountsTooLittle | Assignment 5/Solution/pcc_server.c:102-102 | a client that sends a NUL and "A": the "A" is not counted |
| PccCounts.CountsTooMuch | Assignment 5/Solution/pcc_server.c:102-102 | a client that sends one byte and is told of two |

## Left out

- Search: path strings, `PATH_MAX`, `sched_yield` and `empty_queue`'s use for it, allocation, errors of `readdir` and `pthread_create`, overflow of the counters, `exit` killing the workers.
- Search: that main terminates. Its test at line 476 and its wait at line 487 are not atomic, so a wake-up can be lost; what is proved is that it can still finish.
- Search: the readers-writer locks are exclusive; only main takes one for reading.
- PfindTheorems.FoldersArePartitioned: requires that no directory lists a name twice, as file systems guarantee.
- Page table: host addresses, `mmap` failures, page numbers that were never handed out as roots.
- PageTableOs.Os.PageTableUpdate: does not describe the frames left behind when memory runs out in the middle, because the program exits there.
- Message slot: registration, allocation failure, leaks of old buffers, concurrent calls (each is one step), `sender` and `reader`.
- MessageSlot.Devices.Finalize: does not show the last two calls, which free the table itself and unregister the device.
- MessageSlot.Module.DeviceRead: requires that the user's buffer is not memory of the device.
- Server: socket set-up, byte order, the length field and partial receives (the buffer is arbitrary), messages longer than an int can index, `pcc_client`.
- PccServer.Server.CountChars: requires a NUL somewhere at or behind the buffer, as `strlen` does.
- PccServer.Server.Tick: signals come between the statements of the loop, not inside `count_chars` and `duplicate_pcc_total`; SIGINT is blocked there, so they would only become pending.
- `Assignment 2` (the shell): it forks, calls `execvp` and sets signal dispositions for one line at a time and keeps no state from one command to the next. The client programs each make a fixed series of calls.

# TecnicoFS, modelled and proved

TecnicoFS is an in-memory file system behind a server. A dispatcher reads the requests of all clients from one pipe
and posts each into the mailbox of its session; one worker per session executes them on the file system and answers
into the client's own pipe. This project models the four layers of `tecnicofs_ex2` and proves what each promises, and
what they promise together.

**Storage and file operations.** `TableModel.dfy` says what every function of state.c and every unsynchronized
operation of operations.c does to the tables, branch by branch. `Storage.dfy` is the same code in place: a class with
the arrays as fields, first-fit search loops, and a flat byte array; each method leaves what `TableModel` and
`Serial` say. `Invariant.dfy` (ownership of blocks, shape of the directory) holds with any paths and flags.
`AbstractFs.dfy` is the file system a user sees: named files with bytes, handles with offsets. `Refinement.dfy`
proves that the tables implement it, over whole runs. `Provenance.dfy`, `Chunking.dfy`, `Directory.dfy` and
`Counting.dfy` draw consequences. `Interface.dfy` states what open, write and init promise in the numbers of the header
files. `Hazards.dfy` says exactly where the code departs from that picture.

**Locking and shutdown.** `Locking.dfy` is a machine of small steps: any number of threads, two mutexes, a condition
variable, bodies that copy the tables and store them back later, a counter read and written in separate steps.
`Serializability.dfy` shows every run to be a serial one, `LockOrder.dfy` that the serial order is the order in which
each lock was taken and respects real time. `Shutdown.dfy` proves the counter, wake-ups, deadlock freedom and that
calls and destroyers return, and with what; `EndToEnd.dfy` joins this with the refinement, `Outcomes.dfy` gives each
call's answer at its place in the order, and `Discipline.dfy` shows that threads which use only handles of their own
need no further condition.

**Sessions and mailboxes.** `Sessions.dfy` is a machine of the dispatcher, ten workers and any number of clients, with
the post in separate steps and the worker's reads outside the mutex. `SessionInvariant.dfy` is what every step keeps,
`SessionTheorems.dfy` what follows for every run; `SessionDelivery.dfy` proves that no request is lost, that something
moves while one is under way, and how soon it is executed and answered; `SessionEnd.dfy` says exactly when the process
ends. `ServerTables.dfy` is the code that updates the server's tables in place. `Leak.dfy` follows the path on which
find_free_pos returns with its mutex held.

**The whole server.** `Joint.dfy` runs the two machines as one: a worker that has read a request begins the call in the
locking machine, takes its steps there among all the others, and goes on with the result. `JointInvariant.dfy` keeps
the two sides in agreement; `JointTheorems.dfy` proves that the server goes on unless it waits for files to be closed.
`Answers.dfy` is the main result: every request becomes the call it asks for, every reply carries what the abstract file
system gives for it at its place in one serial order, and that order respects what clients see.

**Wire format.** `Decimal.dfy` covers sprintf and atoi through four bytes, `Wire.dfy` the messages as functions,
`Endpoints.dfy` the client library and the handlers filling and emptying their buffers step by step. `Remote.dfy`
composes messages, decoding, tables and replies.

A call that C leaves undefined gets the result `Undefined` and changes nothing, or a precondition excludes it. There is
one exception: a failed close, whose second pair of unlocks is undefined in C, is given the effect its other statements
have on the tables and the counter, because that effect is the subject of `Counting.CountKeptExactly`. A `Shared` or
`Tables` value may be anything of the declared array sizes before `tfs_init`.

## Where the code and its documentation disagree

The model follows the code.

- `operations.h` promises that a close returns -1 on failure; the code then also decrements `open_files`
  (tecnicofs_ex2/fs/operations.c:211-218). `Counting.CountKeptExactly` says when the counter stays right,
  `Hazards.FailedCloseExample` gives a run after which a destroy returns with a file open.
- Truncation through one handle leaves the offsets of the others where they were, and a read then takes bytes from
  past the end of the file (tecnicofs_ex2/fs/operations.c:311). `Hazards.OffsetsKeptExactly` gives the condition,
  `Hazards.StaleReadExample` a run.
- Creation does not check that a path starts with '/', and stores 39 characters of a name that lookup compares over 40
  (tecnicofs_ex2/fs/operations.c:125, tecnicofs_ex2/fs/state.c:211, tecnicofs_ex2/fs/state.c:244).
  `Directory.DistinctNamesExactly` gives the condition.
- A read or write message with handle -1 leaves the rest of the message in the pipe
  (tecnicofs_ex2/fs/tfs_server.c:343-346, tecnicofs_ex2/fs/tfs_server.c:394-397). `Wire.DecodeInvertsEncodeExactly`
  gives the condition.
- `tfs_write` of the client library promises the number of bytes written; it waits for as many bytes as it wrote, and
  the server sends four (tecnicofs_ex2/client/tecnicofs_client_api.c:271, tecnicofs_ex2/fs/tfs_server.c:720).
  `Wire.WriteReplyInStepExactly` gives the condition, `Wire.ShortWriteShifts` what the next call is then told.
- find_free_pos returns with `global_mutex` locked when it finds no slot (tecnicofs_ex2/fs/tfs_server.c:209-212).
  `SessionTheorems.SearchFailsExactly` gives the condition, `Leak.LeakReached` a run, `Leak.HeldForever` the outcome.

## Model

| member | source | states |
|---|---|---|
| Storage.FileSystem.StateInit | tecnicofs_ex2/fs/state.c:67-80 | all three free maps are cleared and nothing else changes |
| Storage.FileSystem.InodeCreate | tecnicofs_ex2/fs/state.c:92-135 | the search loop takes the first free inode; a directory gets a block and empty slots, or is rolled back |
| Storage.FileSystem.InodeDelete | tecnicofs_ex2/fs/state.c:143-161 | frees the inode and the block of a non-empty one, as the table function says |
| Storage.FileSystem.AddDirEntry | tecnicofs_ex2/fs/state.c:186-218 | fills the first slot labelled -1, with the name cut to 39 characters, or fails unchanged |
| Storage.FileSystem.FindInDir | tecnicofs_ex2/fs/state.c:226-249 | the loop finds the first occupied slot equal to the name over 40 characters |
| Storage.FileSystem.DataBlockAlloc | tecnicofs_ex2/fs/state.c:255-267 | first fit over the block map, or -1 |
| Storage.FileSystem.DataBlockFree | tecnicofs_ex2/fs/state.c:274-282 | frees a block in range and touches nothing else |
| Storage.FileSystem.AddToOpenFileTable | tecnicofs_ex2/fs/state.c:304-314 | the lowest free handle gets the inode and offset, or -1 |
| Storage.FileSystem.RemoveFromOpenFileTable | tecnicofs_ex2/fs/state.c:321-329 | frees a taken entry, fails on any other |
| Storage.FileSystem.TfsInit | tecnicofs_ex2/fs/operations.c:14-27 | ends in the start state of every run below, whatever the arrays held |
| Storage.FileSystem.OpenUnsynchronized | tecnicofs_ex2/fs/operations.c:87-143 | open in place, with truncation and roll-back, is the function the refinement is about |
| Storage.FileSystem.TfsOpen | tecnicofs_ex2/fs/operations.c:145-200 | with the locks held: refused after destroy; otherwise open and count a success |
| Storage.FileSystem.TfsClose | tecnicofs_ex2/fs/operations.c:211-225 | removes the entry and decrements the counter, also when removal failed |
| Storage.FileSystem.TfsWrite | tecnicofs_ex2/fs/operations.c:235-276 | cut at the block, allocation, copy into the flat array, offset and size, in place |
| Storage.FileSystem.TfsRead | tecnicofs_ex2/fs/operations.c:296-331 | the unsigned difference, the copy out of the flat array and the offset, in place |
| Invariant.InitEstablishes | tecnicofs_ex2/fs/operations.c:14-27 | init succeeds on any memory, with no file, no handle and the invariant |
| Invariant.BlockAvailable | tecnicofs_ex2/fs/state.c:255-267 | with n files an empty one always finds a block, among the first n + 1 (pigeonhole) |
| Invariant.TruncateKeeps | tecnicofs_ex2/fs/operations.c:101-109 | truncation cannot fail and leaves each taken block with exactly one owner |
| Invariant.CreateKeeps | tecnicofs_ex2/fs/operations.c:118-129 | creation is rolled back exactly for an empty name or 23 files, and no block or inode leaks either way |
| Invariant.EnsureBlockOwned | tecnicofs_ex2/fs/operations.c:254-262 | a first write gets a taken block that belongs to no other inode |
| Invariant.StoreKeeps | tecnicofs_ex2/fs/operations.c:264-272 | the file that grows owns its block, all other ownership stays |
| Invariant.CallKeeps | tecnicofs_ex2/fs/operations.c:87-331 | any call, any path, flags and read handle, a write through any handle once returned: taken blocks are exactly the root's and the non-empty files', one owner each; inodes 0..n, slots 0..n-1 in order |
| Invariant.WriteKeepsExactly | tecnicofs_ex2/fs/operations.c:237-262 | a write breaks ownership if and only if its entry leads to an unused empty inode and it has something to store |
| Invariant.OnceOpenedLeads | tecnicofs_ex2/fs/state.c:304-341 | a handle that open returned leads to a file in every later state, also after it is closed |
| Invariant.RunFromInitKeeps | tecnicofs_ex2/fs/operations.c:14-331 | the invariant after any such run from init, truncation under moved handles included |
| Invariant.HighBlocksNeverTaken | tecnicofs_ex2/fs/state.c:255-267 | after any such run only the first 24 of the 1024 blocks can be taken |
| AbstractFs.ApplyKeeps | tecnicofs_ex2/fs/operations.c:87-331 | legal calls keep sizes within a block and every offset within its file |
| Refinement.MatchedIsUnique | tecnicofs_ex2/fs/state.c:16-48 | tables represent at most one abstract file system |
| Refinement.FindAgrees | tecnicofs_ex2/fs/operations.c:67-76 | lookup over the slots is lookup in the ordered directory |
| Refinement.OpenExistingAgrees | tecnicofs_ex2/fs/operations.c:91-115 | open of an existing file: truncation stays done even if no handle is left |
| Refinement.OpenNewAgrees | tecnicofs_ex2/fs/operations.c:116-143 | open of a new file: it stays created if no handle is left, and is gone if the directory is full |
| Refinement.CloseAgrees | tecnicofs_ex2/fs/operations.c:211-225 | close, of any handle, is removal from the handle map |
| Refinement.OtherFilesUntouched | tecnicofs_ex2/fs/operations.c:264-272 | writing one file's block changes no byte of another file |
| Refinement.WrittenFile | tecnicofs_ex2/fs/operations.c:248-273 | the written file is the old one overwritten at the offset, a reused block's old bytes notwithstanding |
| Refinement.WriteAgrees | tecnicofs_ex2/fs/operations.c:235-276 | write has the abstract result and leaves matching states |
| Refinement.ReadAgrees | tecnicofs_ex2/fs/operations.c:296-331 | read returns the file's bytes from the offset and moves only that handle |
| Refinement.CallRefines | tecnicofs_ex2/fs/operations.c:87-331 | one legal call: defined, same result, matching states, legal states again |
| Refinement.RunFromInit | tecnicofs_ex2/fs/operations.c:14-331 | every legal run from tfs_init gives the results of the abstract file system and ends matching it |
| Provenance.ReadsReturnStoredBytes | tecnicofs_ex2/fs/operations.c:311-327 | after any legal run, each byte read is the last one stored at that place of that file since it was created or truncated, and reading stops only where none is |
| Chunking.WritesAppend | tecnicofs_ex2/fs/operations.c:248-275 | any sequence of writes at the end appends their concatenation, cut at one block; results add up to what was stored |
| Chunking.ReadsConcatenate | tecnicofs_ex2/fs/operations.c:310-330 | any sequence of reads returns consecutive pieces adding up to one piece |
| Chunking.ChunkingIndependent | tecnicofs_ex2/fs/operations.c:235-331 | on the tables: however data is cut into writes, whatever is opened, closed and read in between, and however reads from the start are sized, the reads concatenate to the first min(asked, stored) bytes, stored = min(written, 1024) |
| Chunking.OpenReaderSeesWrites | tecnicofs_ex2/fs/operations.c:235-331 | a handle opened at the start of the file ahead of the writes is still at its start after them, so the law above applies with nothing in between |
| Chunking.ReopenedReaderSeesWrites | tecnicofs_ex2/fs/operations.c:87-233 | closing the writer and opening the path again is such an in-between, and ends at the start of the file |
| Directory.SlotsAfterOpen | tecnicofs_ex2/fs/state.c:207-217 | open adds one name in the next slot or leaves all slots alone, and exactly when |
| Directory.DistinctNamesExactly | tecnicofs_ex2/fs/operations.c:116-125 | names stay distinct in every state if and only if the call does not create along a path longer than 40 or without '/' |
| Directory.DirectoryAfterRun | tecnicofs_ex2/fs/operations.c:87-143 | whole runs with such paths: the layout of inodes, slots and blocks, and distinct names |
| Directory.LookupInvertsCreation | tecnicofs_ex2/fs/operations.c:119-125 | a created path is found, at the next inode |
| Directory.LookupStableForEver | tecnicofs_ex2/fs/state.c:240-248 | a path once found leads to the same inode in every later state, through any calls, rolled-back creations included |
| Directory.CreatedIsFoundForEver | tecnicofs_ex2/fs/operations.c:119-125 | a created path is found at its inode in every later state |
| Directory.OpenFailsExactly | tecnicofs_ex2/fs/operations.c:87-143 | open fails if and only if 20 handles are open, or the name is missing and may not be created, is empty, or 23 exist |
| Directory.WriteNeverFails | tecnicofs_ex2/fs/operations.c:249-262 | a write through an open handle stores min(length, room in the block) bytes, never -1 |
| Interface.InitInNumbers | tecnicofs_ex2/fs/state.c:67-80 | init leaves inode 0 of 50 and block 0 of 1024 in use, 23 empty slots and 20 free handles, and returns 0 |
| Interface.ExistingByFlags | tecnicofs_ex2/fs/operations.c:101-115 | an existing file, by the literal low bits of the flags: 4 and 5 start at its end and keep its bytes, 0 and 1 start at 0 and keep them, 2, 3, 6 and 7 leave none and start at 0; other files keep theirs |
| Interface.MissingByFlags | tecnicofs_ex2/fs/operations.c:116-143 | a missing name is created by flags 1, 3, 5 and 7, and by no others |
| Interface.FoundByPath | tecnicofs_ex2/fs/operations.c:67-76 | only a path that is byte 47 and at least one more is ever found |
| Interface.CreatedByPath | tecnicofs_ex2/fs/operations.c:67-76 | what is created as 47 and a name of 1 to 39 bytes is found again under it |
| Interface.OpenFailsInNumbers | tecnicofs_ex2/fs/operations.c:87-143 | open returns -1 if and only if 20 handles are open, or the name is missing and the flags are even, the name empty, or 23 files exist |
| Interface.WriteStoresInNumbers | tecnicofs_ex2/fs/operations.c:248-275 | a write through an open handle stores what fits below 1024 |
| Interface.AppendExample | tecnicofs_ex2/fs/operations.c:111-115 | seven concrete calls from init: a file reopened with flag 4 and written to reads as old bytes and then new |
| Hazards.OffsetsKeptExactly | tecnicofs_ex2/fs/operations.c:101-109 | offsets stay inside their files across an open if and only if it does not truncate under a moved handle |
| Hazards.ReadPastEnd | tecnicofs_ex2/fs/operations.c:311-324 | past the end the difference wraps and the read takes as many bytes as asked for |
| Hazards.TruncatedBytesStillRead | tecnicofs_ex2/fs/operations.c:101-109 | after such a truncation the moved handle reads bytes truncated away |
| Hazards.StaleReadExample | tecnicofs_ex2/fs/operations.c:101-109 | five concrete calls from init after which an empty file yields a byte |
| Hazards.FailedCloseUncounts | tecnicofs_ex2/fs/operations.c:211-218 | after any failed close the counter is one less than what is open; with one file open a destroyer does not wait |
| Hazards.FailedCloseExample | tecnicofs_ex2/fs/operations.c:211-218 | open a file, close another handle: the counter is 0, the file open, and a destroy returns |
| Counting.CountKeptExactly | tecnicofs_ex2/fs/operations.c:211-218 | open_files keeps counting the taken entries if and only if the call is not a close of a handle that is not open |
| LockingInvariant.BaseKept | tecnicofs_ex2/fs/operations.c:145-294 | each mutex has the owner its holders' places say; a copied table is still the shared one when it is stored back |
| Serializability.StepSimulates | tecnicofs_ex2/fs/operations.c:145-349 | each step is invisible to the serial state or performs one whole call at once |
| Serializability.EventsUnderLocks | tecnicofs_ex2/fs/operations.c:149-209 | whatever a step logs, its thread owns the locks that go with it |
| Serializability.LogOnlyGrows | tecnicofs_ex2/fs/operations.c:145-349 | a continuation of a run only appends to the serial order |
| Serializability.EveryRunIsSerial | tecnicofs_ex2/fs/operations.c:38-65 | any threads, any interleaving: running the logged calls one after another gives every thread its results in its order, and the final state |
| LockOrder.SerialInLockOrder | tecnicofs_ex2/fs/operations.c:149-209 | for each of the two mutexes, in any run: the logged events that belong under it are its critical sections one after another in the order it was taken, each with its own thread's whole call |
| LockOrder.GlobalLockOrder | tecnicofs_ex2/fs/operations.c:149-156 | the threads that took single_global_lock, in that order, are those of the logged calls, then its owner if its call is still to happen |
| LockOrder.RealTimeOrder | tecnicofs_ex2/fs/operations.c:38-349 | a call that has returned completes in the log ahead of every call begun afterwards |
| EndToEnd.ConcurrentRunRefines | tecnicofs_ex2/fs/operations.c:38-349 | concurrent runs on tables and flat array give the results of the abstract file system in the logged order |
| Outcomes.OutcomeAt | tecnicofs_ex2/fs/operations.c:38-349 | in a log whose calls are legal, each call has the outcome the abstract file system gives after the calls ahead of it, or -1 for an open after a destroy was called |
| Discipline.PoliteThreadsRefine | tecnicofs_ex2/fs/operations.c:38-349 | concurrent threads that use only handles they opened and have not closed, and never truncate: the logged calls are legal, and all results are the abstract file system's |
| Shutdown.CounterAndWakeUps | tecnicofs_ex2/fs/operations.c:47-53 | with called_destroy_mutex free: open_files is the number of taken entries, and no destroyer sleeps unwoken while it is 0 |
| Shutdown.OpensRefused | tecnicofs_ex2/fs/operations.c:158-171 | in any run every open after the first part of a destroy returns -1 |
| Shutdown.NeverRises | tecnicofs_ex2/fs/operations.c:158-186 | once destroy is called open_files never rises |
| Shutdown.AfterDestroy | tecnicofs_ex2/fs/operations.c:38-65 | when a destroy has returned no handle is open and no open succeeds |
| Shutdown.DestroysReturnZero | tecnicofs_ex2/fs/operations.c:38-65 | in any run every destroy that has returned has returned 0 |
| Shutdown.WakesExactly | tecnicofs_ex2/fs/operations.c:51-53 | a sleeping destroyer takes no step, may wake without cause, and is woken by another step if and only if that is the broadcast of a close after destroy with nothing open |
| Shutdown.NoDeadlock | tecnicofs_ex2/fs/operations.c:149-156 | in every reachable state some thread can step, or all are idle or destroyers waiting with files open |
| Shutdown.ClosingEnabled | tecnicofs_ex2/fs/operations.c:42-58 | once nothing is open after destroy was called, a destroyer can step exactly when no other thread owns called_destroy_mutex |
| Shutdown.DestroyersReturn | tecnicofs_ex2/fs/operations.c:47-64 | once nothing is open a destroyer takes at most four more of its own steps before it returns, whatever the others do |
| Shutdown.CallsEnd | tecnicofs_ex2/fs/operations.c:145-349 | in any run a call of open, close, write or read has returned once its thread has taken ten more steps, whatever the others do |
| ServerTables.Server.constructor | tecnicofs_ex2/fs/tfs_server.c:808-852 | the loops of server_init leave the tables of the machine's initial state |
| ServerTables.Server.FindFreePos | tecnicofs_ex2/fs/tfs_server.c:194-218 | the first free slot, now taken, with the mutex released; or -1, with the mutex held |
| ServerTables.Server.Post | tecnicofs_ex2/fs/tfs_server.c:264-271 | lock, code, fields, wake-up, unlock: the five steps of the machine, in the tables |
| ServerTables.Server.HandleMount | tecnicofs_ex2/fs/tfs_server.c:238-276 | both refusals, or a slot, a post and one more session |
| ServerTables.Server.HandleUnmount | tecnicofs_ex2/fs/tfs_server.c:278-313 | refused or posted, and one session less |
| ServerTables.Server.HandleRequest | tecnicofs_ex2/fs/tfs_server.c:514-522 | the other handlers leave what their six steps in the machine leave |
| ServerTables.Server.TakeWakeUp | tecnicofs_ex2/fs/tfs_server.c:755-764 | one turn of the wait loop |
| ServerTables.Server.ReadRequest | tecnicofs_ex2/fs/tfs_server.c:766-804 | the unlocked reads give the job the machine gives |
| ServerTables.Server.ThreadMount | tecnicofs_ex2/fs/tfs_server.c:554-574 | the session gets the posted descriptor; the answer is its number |
| ServerTables.Server.ThreadUnmount | tecnicofs_ex2/fs/tfs_server.c:576-593 | the session's descriptor is closed and forgotten, its slot freed |
| SessionInvariant.StoredIsLoaded | tecnicofs_ex2/fs/tfs_server.c:514-522 | a worker that reads a finished post gets exactly the job posted, whatever the request held before |
| SessionInvariant.StepKeeps | tecnicofs_ex2/fs/tfs_server.c:751-806 | every step keeps the invariant: each message, post and descriptor belongs to the client it says |
| SessionTheorems.NoOverwrite | tecnicofs_ex2/fs/tfs_server.c:264-271 | in every run a request changes only while none is posted there and its worker is not reading |
| SessionTheorems.ExactlyOnceInOrder | tecnicofs_ex2/fs/tfs_server.c:755-804 | every client's jobs are executed as sent, in order, none twice; all of them once it has its reply |
| SessionDelivery.TracedAlways | tecnicofs_ex2/fs/tfs_server.c:913-972 | in every run each queued client has a message in the pipe, each posted one a slot: the dispatcher drops nothing |
| SessionDelivery.NothingLost | tecnicofs_ex2/fs/tfs_server.c:913-972 | every job sent has been executed, but for a refused mount and for the last one, which is in the pipe, with the dispatcher or in its slot, as it was meant |
| SessionDelivery.RequestsMoveOn | tecnicofs_ex2/fs/tfs_server.c:755-804 | while a request is under way, the process has not ended and global_mutex is not lost, the dispatcher or a worker can take a step that is not the end of a shutdown; or the request is itself a shutdown that has begun |
| SessionDelivery.DeliveredSoon | tecnicofs_ex2/fs/tfs_server.c:913-972 | a request with k messages ahead of it is posted or refused within 9k + 17 steps of the dispatcher, whatever the others do |
| SessionDelivery.TakenSoon | tecnicofs_ex2/fs/tfs_server.c:755-804 | within five steps of its worker a posted request, of any kind, is executed or read as it was meant and about to be, whatever the others do |
| SessionDelivery.ExecutedSoon | tecnicofs_ex2/fs/tfs_server.c:755-804 | a posted request that is no shutdown is executed within six steps of its worker, the call into the file system counted as one, whatever the others do |
| SessionDelivery.AnsweredSoon | tecnicofs_ex2/fs/tfs_server.c:755-804 | a posted request that is no shutdown or unmount has been answered, to the client that sent it, within seven steps of its worker, whatever the others do |
| SessionDelivery.AnsweredNext | tecnicofs_ex2/fs/tfs_server.c:755-804 | once a job that is answered has been executed, of any kind, the next step of its worker answers the client |
| SessionEnd.EndsExactly | tecnicofs_ex2/fs/tfs_server.c:711-749 | in every run the process has ended if and only if some client's last executed job is a shutdown that was answered or a write whose result was negative |
| SessionTheorems.ClientsMayAct | tecnicofs_ex2/client/tecnicofs_client_api.c:36-93 | in every run a client may mount, send any of the five requests or unmount exactly when it is fresh or ready, and goes on exactly when its reply is there |
| SessionTheorems.WorkerWakesExactly | tecnicofs_ex2/fs/tfs_server.c:757-762 | a sleeping worker takes no step, may wake without cause, and is woken by another step if and only if that is the signal of a post to its slot |
| SessionTheorems.NoLostSignal | tecnicofs_ex2/fs/tfs_server.c:757-762 | a posted request never has its worker asleep and unsignalled |
| SessionTheorems.SessionsAreDisjoint | tecnicofs_ex2/fs/tfs_server.c:200-213 | no two clients hold one session, across slot reuse |
| SessionTheorems.DescriptorIsTenants | tecnicofs_ex2/fs/tfs_server.c:554-593 | a session's descriptor leads to its owner from execution of the mount to execution of the unmount |
| SessionTheorems.RepliesReachTheirSender | tecnicofs_ex2/fs/tfs_server.c:610-612 | a reply goes to the client that sent the job it answers and waits for it, and to no other |
| SessionTheorems.SessionConservation | tecnicofs_ex2/fs/tfs_server.c:272-312 | at each loop head taken slots = open_sessions + unfinished unmounts; 0 <= open_sessions <= 10 always |
| SessionTheorems.UnmountIsAccepted | tecnicofs_ex2/fs/tfs_server.c:295-298 | the unmount of a live client is never refused |
| SessionTheorems.MountRefusedExactly | tecnicofs_ex2/fs/tfs_server.c:240-253 | a mount is refused at once if and only if taken slots less unfinished unmounts are 10: it is told -1, its descriptor is closed, and nothing else changes |
| SessionTheorems.SearchFailsExactly | tecnicofs_ex2/fs/tfs_server.c:209-212 | the search fails, keeping the mutex, if and only if open_sessions + unfinished unmounts = 10 |
| JointInvariant.StepKeepsAgree | tecnicofs_ex2/fs/tfs_server.c:595-749 | every step of the whole server keeps both sides in agreement: a worker's thread runs exactly the call its job asks for, a client's executed jobs are its calls, and a pending reply carries the outcome of the last |
| JointTheorems.BothRun | tecnicofs_ex2/fs/tfs_server.c:751-806 | every run of the whole server is a run of the session machine and one of the locking machine in which threads use only their own handles |
| JointTheorems.ServerMovesOn | tecnicofs_ex2/fs/tfs_server.c:723-749 | while a request is under way the dispatcher or a worker can step, inside a call or outside; or the request is a shutdown, asleep, and some file is open |
| Answers.ClientsSeeAbstractFs | tecnicofs_ex2/fs/tfs_server.c:595-749 | any clients, any interleaving: the jobs of a client after its mount have become, in order, the open, close, write, read or destroy with those very arguments; each has, at its place in the log, the outcome of the abstract file system, a shutdown 0; a reply carries the code of that outcome |
| Answers.RepliesBeforeRequests | tecnicofs_ex2/fs/tfs_server.c:595-749 | a request executed by some moment stands in the serial order ahead of every request that a client ready at that moment sends afterwards |
| Answers.EndsOnlyFairly | tecnicofs_ex2/fs/tfs_server.c:711-749 | the process ends only after a shutdown answered 0, or a write through a handle outside 0..19; never for a write through a handle an open has returned |
| Leak.LeakReached | tecnicofs_ex2/fs/tfs_server.c:209-212 | eleven clients and one early unmount get there |
| Leak.HeldForever | tecnicofs_ex2/fs/tfs_server.c:209-212 | from then on no session is counted and no slot changes hands, in any run |
| Decimal.AtoiPrinted | tecnicofs_ex2/client/tecnicofs_client_api.c:299-301 | atoi gives back the number sprintf printed, whatever non-digit follows |
| Decimal.FieldCarriesExactly | tecnicofs_ex2/client/tecnicofs_client_api.c:321-329 | four bytes into a zeroed longer buffer carry a number if and only if it is in -999..9999 |
| Decimal.FieldIntoJunkExactly | tecnicofs_ex2/fs/tfs_server.c:435-454 | a number survives every uncleared buffer of that length if and only if it is in -99..999 |
| Wire.DecodeInvertsEncodeExactly | tecnicofs_ex2/fs/tfs_server.c:371-413 | a message decodes to its meaning and leaves the stream in step if and only if it is no read or write with handle -1 |
| Wire.StreamRoundTrip | tecnicofs_ex2/fs/tfs_server.c:913-972 | any sequence of such messages decodes to itself and every byte is consumed, whatever uncleared buffers hold |
| Wire.RemoteReadIsLocal | tecnicofs_ex2/fs/tfs_server.c:661-686 | code and bytes of a read survive the reply, and the pipe is empty afterwards |
| Wire.WriteFitsExactly | tecnicofs_ex2/fs/tfs_server.c:400-412 | a write through a real handle arrives if and only if it has at most 100 bytes |
| Wire.WriteReplyInStepExactly | tecnicofs_ex2/client/tecnicofs_client_api.c:264-281 | the reply to a write is understood and the pipe left in step if and only if the write was of 4 bytes; after more the client waits, after fewer bytes are left |
| Wire.ShortWriteShifts | tecnicofs_ex2/client/tecnicofs_client_api.c:264-281 | what a write of fewer than 4 bytes leaves is read as the next reply, as 0 whatever that is |
| Endpoints.Client.Mount | tecnicofs_ex2/client/tecnicofs_client_api.c:36-56 | appends the encoding of a mount to the server's pipe |
| Endpoints.Client.Unmount | tecnicofs_ex2/client/tecnicofs_client_api.c:95-111 | appends the encoding of an unmount |
| Endpoints.Client.Open | tecnicofs_ex2/client/tecnicofs_client_api.c:131-162 | appends the encoding of an open, buffer filled at the moving length |
| Endpoints.Client.Close | tecnicofs_ex2/client/tecnicofs_client_api.c:182-207 | appends the encoding of a close |
| Endpoints.Client.Write | tecnicofs_ex2/client/tecnicofs_client_api.c:226-262 | appends the encoding of a write with its data |
| Endpoints.Client.Read | tecnicofs_ex2/client/tecnicofs_client_api.c:283-313 | appends the encoding of a read |
| Endpoints.Client.Shutdown | tecnicofs_ex2/client/tecnicofs_client_api.c:352-367 | appends the encoding of a shutdown |
| Endpoints.Client.ReceiveReadReply | tecnicofs_ex2/client/tecnicofs_client_api.c:318-349 | takes the code and then that many bytes off the client's pipe |
| Endpoints.Client.ReceiveWriteReply | tecnicofs_ex2/client/tecnicofs_client_api.c:264-281 | takes as many bytes as were written off the client's pipe |
| Endpoints.Slait | tecnicofs_ex2/fs/tfs_server.c:139-161 | the next bytes of the pipe into the front of a buffer, the rest of it unchanged |
| Endpoints.Dispatcher.HandleOpen | tecnicofs_ex2/fs/tfs_server.c:478-510 | 45 bytes into session, name and flags |
| Endpoints.Dispatcher.HandleClose | tecnicofs_ex2/fs/tfs_server.c:433-462 | two fields through one uncleared buffer |
| Endpoints.Dispatcher.HandleWrite | tecnicofs_ex2/fs/tfs_server.c:371-409 | three fields and the data through one uncleared buffer |
| Endpoints.Dispatcher.HandleRead | tecnicofs_ex2/fs/tfs_server.c:315-354 | three fields, or two and the rest left behind |
| Endpoints.Dispatcher.Turn | tecnicofs_ex2/fs/tfs_server.c:913-970 | one turn of the loop is one decoding |
| Endpoints.Dispatcher.Serve | tecnicofs_ex2/fs/tfs_server.c:913-972 | the loop over a stream of messages understands each as meant and consumes all bytes |
| Remote.ServedStreamRefines | tecnicofs_ex2/fs/tfs_server.c:595-720 | messages encoded, decoded and executed from init: the calls are those the messages ask for, with their arguments; the results are the abstract file system's, and the client library returns each byte for byte if and only if it is no write of other than 4 bytes |

## Left out

- Named pipes and signals: creating, opening and re-opening pipes, short reads, end of file and SIGINT are the
  operating system's; a pipe is a sequence of bytes with whole reads and writes.
- Byte layout of the root directory: its slots are a separate array of 23 names and numbers, not bytes of block 0.
- Delays, printing, the operation counter, `handle_error`, `erase_client` and `sessions[i].name`: nothing modelled
  reads them.
- `read_lock`: it is only ever taken for reading (tecnicofs_ex2/fs/tfs_server.c:628-630), so it orders nothing.
- Failing pthread calls: locking succeeds. The process exit after a shutdown, and the one after a write that failed
  (tecnicofs_ex2/fs/tfs_server.c:713-716), is the end of a run: the failed write is not answered, and the second reply
  of a shutdown is not modelled.
- Functions declared but not implemented, such as `tfs_copy_to_external_fs` and `clear_dir_entry`.
- Storage.FileSystem.TfsOpen: its locks, and those of close, write and read, are modelled in `Locking.dfy` only; the
  class is one thread running alone.
- Storage.FileSystem.TfsClose: a failed close unlocks both mutexes and then again after the decrement; the second pair
  is undefined in C and not part of the method. Nor is the broadcast to waiting destroyers, which is in `Locking.dfy`.
- Invariant.CallKeeps: a write through a handle that no open has returned goes wherever the entry points; where that is
  the root directory its bytes would change the slots, which are not bytes here, so that case is left out.
- Invariant.WriteKeepsExactly: an entry that leads to the root directory is excluded, for the same reason.
- Invariant.RunFromInitKeeps: says nothing of a run after a call that C leaves undefined, which the model lets change
  nothing.
- Refinement.RunFromInit: legal runs only; reads and writes use open handles, no open truncates under a moved handle,
  lengths do not wrap. `Hazards`, `Counting` and `Directory` say what happens outside.
- Serializability.EveryRunIsSerial: a close is called with a handle no other thread is closing, since a failed close
  unlocks both mutexes twice, which C leaves undefined.
- Shutdown.DestroyersReturn: counts a destroyer's own steps; that a waiting thread eventually gets a mutex is up to
  the scheduler and is not modelled.
- SessionDelivery.DeliveredSoon: counts the dispatcher's own steps, as SessionDelivery.ExecutedSoon counts a worker's;
  that a thread which can step is eventually scheduled is not modelled.
- SessionDelivery.RequestsMoveOn: nothing more of a shutdown that has begun, which waits until no file is open
  (tecnicofs_ex2/fs/operations.c:51-53); the session machine does not know when that is. `JointTheorems.ServerMovesOn`
  does, and `Shutdown.DestroyersReturn` bounds what follows.
- SessionDelivery.ExecutedSoon: excludes a shutdown for that reason, and counts a call as one step;
  `Shutdown.CallsEnd` bounds the steps of the call itself.
- SessionTheorems.ExactlyOnceInOrder: what the file system answers is arbitrary in the session machine, and is its
  answer in `Answers.dfy`; a client is one session from mount to unmount, and mounting again is another client.
- SessionTheorems.RepliesReachTheirSender: the handlers that answer a handle of -1 at once, from the dispatcher, are
  not in the session machine; they are in `Wire.dfy` as `GotRefused`.
- SessionInvariant.StepKeeps: a worker's reads of its request are two steps, the code and the rest; the read of the
  session's descriptor is made at the reply.
- ServerTables.Server.HandleMount: the mutexes it takes are free when it takes them; waiting for one is a disabled step
  of the session machine, and interleavings are those of the machine.
- ServerTables.Server.HandleUnmount: likewise, the slot's mutex and global_mutex are free when it takes them.
- ServerTables.Server.HandleRequest: likewise, the slot's mutex is free when it takes it.
- Wire.StreamRoundTrip: sessions 0..9, handles 0..19, flags 0..7, at most 100 bytes written and
  9999 asked for; the name of a client pipe ends within its 40 bytes.
- Remote.ServedStreamRefines: requests served one after another; requests of different sessions executed at the same
  time are covered by `Answers.dfy` without the wire. A write through a handle out of range ends the process, so what
  the statement says of later calls is not reached then.
- Discipline.PoliteThreadsRefine: no truncation at all, which is more than the legal runs of `Refinement.dfy` ask for:
  a thread cannot see whether another thread's handle has moved.
- Answers.ClientsSeeAbstractFs: likewise each client uses handles it opened itself and has not closed, and none
  truncates; `Answers.RequestMayBe` spells this out. A reply carries the code of the outcome; that the bytes of a read
  follow it is in `Remote.dfy`.

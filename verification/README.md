# Verified models of a Linux compatibility layer

A Dafny project that models the parts of the layer where several actors share
state, or where one representation is turned into another, and proves what they
guarantee. `dafny verify dfyconfig.toml` checks everything.

| component | files | what it is about |
|---|---|---|
| process exit | `Exit*.dfy` | exiting threads, one clean_server listener per CPU and the parent's wait4 race over `exit_state`, the thread count and the reference count |
| cooperative RPC server | `Coop*.dfy`, `NestToken.dfy`, `ReplyPortTlv.dfy` | one thread multiplexes many parked jobs over a single send slot and matches nested replies by cookie |
| file server jobs | `Vfs*.dfy` | the handler and resume code of every kind of request, over the queue and the tree of names |
| user memory | `Cow*.dfy`, `MapRange.dfy` | copy-on-write after fork, mapping of ranges with rollback, unmapping in coalesced runs |
| exec | `UserMemory.dfy`, `ExecStack.dfy`, `ExecBuild.dfy` | the initial stack image of a program |
| paths | `PathAlgebra.dfy`, `PathBuffers.dfy` | normalize, parent, basename and join |
| file server I/O | `ChunkedIo.dfy`, `ChunkedWrite.dfy`, `WriteRun.dfy`, `Getdents.dfy`, `DirListing.dfy` | reads and writes in parked chunks, directory listings over many calls |
| storage | `PageSlice.dfy`, `CachedFile.dfy`, `PageCache.dfy`, `CacheRuns.dfy`, `CpioFormat.dfy`, `CpioProofs.dfy` | page cache over the RAM file system, newc archives |
| namespace | `Namespace*.dfy` | the tree of names with tombstones, under interleaved commits |
| shared | `Common.dfy`, `Wrappers.dfy`, `Bytes.dfy`, `Lists.dfy` | error numbers and sizes, option type, bytes, buffers and C strings, list removal |

How the models are built:

- **Protocols are step relations.** Every lock section, every registry lookup,
  every unlocked store, every list operation and every reference operation of the
  exit code, and every lock section of a copy-on-write split, is one step: a
  pointer that a lookup returns is used in a later step. A run is any sequence of
  enabled steps, so a theorem about runs covers every interleaving, any number of
  CPUs, processes, address spaces and threads. Fields called history are written
  and never read by a guard.
- **Code that drives the queue is a program.** What a handler does with a job is a
  tree of set_result, nested requests with both their outcomes, and a return. Its
  type allows returning too early or finishing twice; that the file server's code
  does neither is proved branch by branch and carried into the runs of the queue.
- **Sequential code keeps its form.** Objects that the C code updates in place
  are classes (`CoopServer.Server` with its job objects, `CowSplit.Memory`,
  `MapRange.AddressSpace`, `UserMemory.Space`, `ChunkedIo.ReadJob`,
  `ChunkedWrite.WriteJob`, `Getdents.Job`, `PageCache.Store`,
  `NamespaceStore.Namespace`, `ExitLists.PendingExits`); loops are loops. Their
  methods are proved equal to specification functions, and the theorems are
  about those.
- **The core is an oracle.** Ports, message transfer, allocators, locks, page
  tables and copies to and from user memory live outside the modelled files.
  What they answer comes from an arbitrary function, a parameter or an arbitrary
  choice of step, so results hold for every pattern of failures.
- **Proof engineering.** Large invariants are quantified over an enumeration of
  their parts, and recursive definitions over a one-value type `Seal`, so that a
  proof sees only what it unfolds.

Where the code does not do what one would expect, the model does what the code
does, an input or run that shows it is given, and the exact condition is proved:

- The fallback push of an exit notification writes into a parent that may have
  been freed since it was looked up (`ExitUseAfterFree.PushIntoFreedParent`).
  `ExitTheorems.Borrowed` lists the uses of this kind: the parent of that push, child
  and parent of a parked job, a candidate of the pid scan that is not a child, and
  what a thread in wait4 or sys_exit has looked up (wait4_has_live_child,
  proc_parent_has_unreaped_child, linux_proc_wait_pid_matches,
  linux_proc_queue_sigchld). Such an object is alive exactly until its reap is over
  and no listener works on it (`ExitTheorems.BorrowedAliveIff`); every other modelled
  use is safe (`ExitTheorems.NoStepTouchesFreedProcess`).
- A wait4 whose status pointer is bad loses the notification, and no wait4 ever
  returns that child (`ExitTheorems.WaitReapsItsChild`,
  `ExitTheorems.LostNotificationIsFinal`); `ExitUseAfterFree.StatusFaultLosesChild`
  is a run.
- An open with O_CREAT can answer -EIO and leave the file it has created
  (`VfsTheorems.OpenFailsAfterCreate`; a run from the start of the server is
  `VfsRuns.OpenFailsAndLeavesFile`); this is the only request that fails after
  changing the tree, but for a mkdir that meets a tree its prepare did not see and
  gets no node
  (`VfsTheorems.FailureChangesTreeIff`, `VfsServer.FailedJobsLeaveTree`).
- An open with O_CREAT and O_EXCL never succeeds: a file that was there is
  refused, and so is the one it has just created (`VfsTheorems.ExclusiveOpenFails`,
  over whole runs `VfsRuns.ExclusiveOpensFail`).
- A ramfs mount covers its directory and answers 0 even if the backend refused
  (`VfsTheorems.MountIgnoresBackend`).
- Every open handle has its own copy of the file's size, made when it was opened
  (vfs_handle.c:92), and the code compares with that copy: to see a file grow
  (vfs_backend_ramfs.c:73, 83), to fill a cache entry (vfs_page_cache.c:437, 447)
  and to append (vfs_coop.c:165). A write after which the file is larger than the
  handle believes drops the cache entry, and a dirty entry is flushed over the write:
  its bytes are gone, and the handle believes in a size the file does not have
  (`CachedFile.WrittenIff`, `CachedFile.WrittenIffThere`, `CachedFile.WriterKnowsSizeIff`).
  An append after an overwrite is lost so (`PageCache.AppendIsLost`), and with two
  handles an overwrite that grows nothing (`PageCache.OverwriteIsLost`); a truncate
  has the same flaw (`CachedFile.RecutIff`). A handle that is ahead reads behind the
  end of the file and fills an entry that differs from it
  (`PageCache.ReadBehindTheEnd`, `CachedFile.ReadIsRightIff`,
  `CachedFile.FillIsCoherentIff`), which a later flush makes the file
  (`PageCache.FlushGrowsTheFile`).
- Over whole runs, through any handles, everything is as if there was no cache up to
  the first operation that changes the size of a file while it has another handle, or
  a dirty entry that can be flushed, and not beyond (`CacheRuns.RunIsPlainIff`). An
  open with O_TRUNC in that place leaves a handle of size 0 on a file that has kept
  its bytes (`PageCache.EmptyOpenIsLost`).
- So one write of two pages to a cached file of one page loses the second and is
  answered with 8192 (`ChunkedWrite.SecondPageIsLost`), and an append that follows
  leaves a gap (`ChunkedWrite.AppendLeavesAGap`). The request as a whole is one write
  exactly if no chunk is flushed over, or if what that chunk lost inside the old file
  was there before and what it lost behind it is uncovered by the next one
  (`WriteRun.WriteRunIff`; the second does happen: `ChunkedWrite.ThirdPageRestores`).
- A write behind the end of a file does not clear the gap
  (`PageCache.WriteBehindTheEnd`, `CachedFile.GapIsWhatWasThere`).
- A getdents64 that fails after packing a record has moved the handle past it
  (`Getdents.FirstEntryIsLost`); `Getdents.LosesRecordsIff` says when.
- A rename onto a name that has a tombstone, or into the renamed directory itself,
  makes the whole subtree unreachable (`NamespaceRefinement.RenameOntoTombstone`,
  `NamespaceRefinement.RenameIs`); a hard link onto a tombstone and a create over a
  name that a mount covers answer 0 and show nothing
  (`NamespaceRefinement.LinkChangesOnePath`,
  `NamespaceRefinement.CreateChangesOnePath`).
- Commits do not look again at what their prepares saw. Unlink, rename and link act
  as one update of a map from paths on any tree; a create whose directory has been
  renamed in between brings the directory back
  (`NamespaceInterleaving.StaleCreateBringsDirectoryBack`), and
  `NamespaceInterleaving.CommitActsIff` says when a commit is one update.
- `vfs_coop_issue_nested` retries up to 64 times while another job owns the send
  slot, but only the retrying thread can free the slot, so all retries fail and
  the client gets -EIO (`CoopTheorems.BusySlotFailsSecond`,
  `CoopProofs.IssueNestedIsOneCall`, `CoopTheorems.NestedCallParksIff`).
- The listen thread also sends blocking messages: replies to requests that cannot be
  read or get no job (rpc.c:1347-1369), and calls that undo a create, mkdir or link
  whose commit got no node (vfs_namespace.c:575, 684, 1146). They use the send queue
  of the jobs, but not its owner. With a payload of a job in front, that payload goes
  to the wrong port (`CoopBlocking.RequestGoesToClient`); queue, slot and deliveries
  stay right exactly if each finds the slot free (`CoopBlocking.SoundIffClean`).
- A reply port behind almost 4 GiB of payload makes the scan read behind the end
  (`ReplyPortTlv.FindReplyPort`, `ReplyPortTlv.StaysInside`).
- Given a buffer of one byte, normalize and join write two, and so does parent if the
  parent is the root (`PathBuffers.Room`, `PathBuffers.NormalizePath`).
- At the limit of 32 components join can leave a directory with `..` and
  normalization cannot (`PathAlgebra.JoinFailsAtTheLimit`,
  `PathAlgebra.JoinAtTheLimit`).
- The comment in `linux_exec_stack.c` and the code agree on an entry stack
  pointer of 8 mod 16 on x86_64; section 3.4.1 of the System V AMD64 psABI asks
  for 0 mod 16. The model proves what the code sets.

Assumptions that are not visible in a contract: fork and clone allocate, attach
and register in one step; process ids and objects are never reused; one insertion
into or removal from a list of the exit code is atomic, and so is one look at the
registry; a post to a wait port is one step; `delete_thread` succeeds and every
reaped thread went through `linux_proc_mark_exiting`. One call of the file
server's handler or resume code is one step, because its thread runs alone.

## Model

| member | source | states |
|---|---|---|
| ExitTheorems.StepKeeps | servers/clean_server.c:226-365 | every step of exiting threads, reap handlers, linux_proc_reap and wait4 keeps the invariant of the whole system |
| ExitTheorems.RunKeeps | servers/clean_server.c:226-365 | the invariant holds in every state of every run |
| ExitTheorems.ExitStateOnlyMovesForward | linux_layer/syscall/thread_syscall.c:27-35 | `exit_state` never moves back between any two states of a run, although ZOMBIE is stored without the lock |
| ExitTheorems.ProcessRecord | linux_layer/proc/linux_proc.c:108-197 | the thread count is the number of attached threads, NOTIFIED or CLAIMED means none, fini and the exit commit happen at most once, wait4 returns a pid at most as often as its exit was committed |
| ExitTheorems.ExitIsCommitted | servers/clean_server.c:195-220 | once the last thread is gone and no reap handler works on it, a process is NOTIFIED or CLAIMED: no exit is forgotten |
| ExitTheorems.ReferencesBalance | linux_layer/proc/linux_proc.c:38-134 | the reference count is exactly the base reference until reaped, plus attached threads, running handlers and detached threads not yet dropped; the object is freed exactly when nobody holds one |
| ExitTheorems.NotificationIsUnique | servers/clean_server.c:80-188 | an exit notification is in at most one place (parked job, wait port, pending list, an agent's hand), there once, and nowhere after wait4 returned its child |
| ExitTheorems.WaitReapsItsChild | linux_layer/proc/sys_wait.c:47-74 | a wait4 that holds a notification goes on to reap that child exactly if the status store works, with the stored exit status; if it fails the notification is gone |
| ExitTheorems.WaiterClaims | linux_layer/proc/sys_wait.c:69-73 | in every reachable state the claim of a wait4 that got so far succeeds |
| ExitTheorems.LostNotificationIsFinal | linux_layer/proc/sys_wait.c:66-67 | a notification that is used up or lost never comes back, and wait4 does not return the child later on |
| ExitUseAfterFree.StatusFaultLosesChild | linux_layer/proc/sys_wait.c:58-67 | a run: the parent holds the notification, the store of the status faults, and the child is a registered zombie that nobody has reaped |
| ExitTheorems.NoStepTouchesFreedProcess | servers/clean_server.c:226-365 | no step of any interleaving uses a process object after it was freed, but for pointers that were looked up without a reference, the lookups of wait4 and sys_exit included |
| ExitTheorems.WritesAreTouched | servers/clean_server.c:80-188 | the objects a step is said to use include every object it changes, pending lists included |
| ExitTheorems.BorrowedAliveIff | servers/clean_server.c:122-145 | such an object is alive exactly until its reap is over and no listener works on it |
| ExitTheorems.LookedUpIsThere | linux_layer/proc/sys_wait.c:77-92 | what an attached thread has looked up without a reference can be used at any later time, so these uses are steps of every run they can be in |
| ExitUseAfterFree.PushIntoFreedParent | servers/clean_server.c:122-145 | a run at whose end a listener pushes into the pending list of a freed parent |
| ExitTheorems.PollStaysAtItsJob | servers/clean_server.c:80-116 | in every reachable state the parked job a listener is at is still on its list |
| ExitTheorems.StatusRoundTrip | linux_layer/proc/sys_wait.c:42-45 | reading the encoded wait status back gives the exit code and no signal |
| ExitReapSteps.ClaimKeeps | linux_layer/proc/linux_proc.c:175-197 | the claim in linux_proc_reap keeps the invariant whoever runs it |
| ExitReapSteps.NoteReapable | linux_layer/proc/sys_wait.c:47-74 | the guard of the reap in wait4 is true for every notification it can hold |
| ExitReapSteps.OrphanHasNoWaiter | servers/clean_server.c:320-364 | a process whose parent cannot wait is not being waited for, so clean_server may reap it |
| ExitFiniStep.DrainOneKeeps | linux_layer/proc/proc_wait_ipc.c:105-127 | taking one entry off the pending list keeps the invariant |
| ExitFiniStep.ScanKeeps | linux_layer/proc/sys_proc_registry.c:255-270 | looking a candidate up keeps the invariant, found or not |
| ExitFiniStep.ScannedChildUnclaimed | linux_layer/proc/sys_proc_registry.c:255-270 | a child that the scan finds is not claimed, so the store of its ppid meets a live object |
| ExitFiniStep.AdoptKeeps | linux_layer/proc/sys_proc_registry.c:266-268 | test and store of ppid, some time after the lookup, keep the invariant |
| ExitFiniStep.UnregisterKeeps | linux_layer/proc/linux_proc.c:151-166 | removing the process from the registry keeps the invariant, whatever was pushed since the drain |
| ExitHandlerSteps.CommitKeeps | servers/clean_server.c:340-363 | the check and set to NOTIFIED keeps the invariant, so at most one handler commits |
| ExitMailSteps.PollKeeps | servers/clean_server.c:80-116 | lookup, post, second lookup and push of a parked job, each its own step, keep the invariant |
| ExitMailSteps.PushPendingKeeps | servers/clean_server.c:122-145 | the fallback push keeps the invariant, even onto a parent that is gone |
| ExitMailSteps.MailedChildNotified | linux_layer/proc/sys_wait.c:154-196 | the child of a note that a live parent can receive is NOTIFIED and not yet reaped |
| ExitThreadSteps.MarkStateKeeps | linux_layer/syscall/thread_syscall.c:27-35 | the unlocked store of ZOMBIE keeps the invariant, because the storing thread is still attached |
| ExitLists.PushIsStep | linux_layer/proc/proc_wait_ipc.c:47-70 | in every reachable state the three pushes of the protocol append their note to the pending list of the note's parent and to no other, and are refused only for want of memory |
| ExitLists.PendingExits.Take | linux_layer/proc/proc_wait_ipc.c:72-103 | removes exactly the first matching note and keeps the order of the others |
| ExitLists.PendingExits.Drain | linux_layer/proc/proc_wait_ipc.c:105-127 | empties the list |
| CoopProofs.ServeSound | linux_layer/ipc/rpc.c:1385-1410 | every sequence of requests, nested replies and polls keeps the invariant of queue, slot, cookies and replies |
| CoopProofs.PollJobSound | linux_layer/ipc/rpc.c:1261-1320 | a poll of one job keeps the invariant and touches no other job |
| CoopProofs.NestedCallSound | linux_layer/ipc/rpc.c:1042-1137 | a nested call parks the job, is refused because another job owns the slot, or fails with the job back in state NONE; nothing else changes |
| CoopProofs.TryReplySound | linux_layer/ipc/rpc.c:1156-1210 | a reply attempt leaves the job owing a reply, or releasable with the slot free |
| CoopProofs.ExecSound | servers/fs/vfs_coop.c:63-104 | a handler or resume program in order leaves its job parked, or owing the program's verdict, or to be finished by the caller, and keeps the invariant |
| CoopProofs.AcceptSound | linux_layer/ipc/rpc.c:1326-1383 | accepting a request keeps the invariant for every way a handler can return |
| CoopProofs.ClearSlot | linux_layer/ipc/rpc.c:821-833 | the owner loses its payload and the slot becomes free; for every other job nothing changes |
| CoopProofs.IssueNestedIsOneCall | servers/fs/vfs_coop.c:79-104 | up to 64 tries have the effect of one: a slot that is busy stays busy |
| CoopProofs.NestedSendOwns | linux_layer/ipc/rpc.c:1276-1302 | a job in NESTED_SEND is the send owner, so the skip in the poll loop never applies |
| CoopTheorems.SlotHasOneOwner | linux_layer/ipc/rpc.c:821-833 | in every reachable state a job has a payload queued exactly when it owns the slot, and the queue holds that payload alone |
| CoopTheorems.NoJobIsStranded | linux_layer/ipc/rpc.c:1326-1383 | in every reachable state of a server whose programs are in order each job owes a reply, owns the slot and waits to send, or waits for a reply to its own cookie |
| CoopTheorems.AtMostOneReply | linux_layer/ipc/rpc.c:1156-1210 | each request is answered at most once, at the port it named, and not while its job is in the queue |
| CoopTheorems.NothingIsMisdelivered | linux_layer/ipc/rpc.c:797-819 | no payload of a job is sent to a port it was not meant for, although the send queue is not sorted by destination |
| CoopBlocking.DirectSoundIff | linux_layer/ipc/rpc.c:599-668 | one round of a blocking send keeps the invariant of queue, slot, cookies and replies exactly if the slot is free and the core leaves nothing behind |
| CoopBlocking.DirectDeliversIff | linux_layer/ipc/rpc.c:599-668 | after such a round every payload has gone to its own port exactly if the slot was free, nothing was delivered, or what was in front goes to the same port |
| CoopBlocking.SoundIffClean | linux_layer/ipc/rpc.c:1347-1369 | over runs of requests, replies, polls and blocking sends: the invariant holds after every event exactly if every blocking send finds the slot free and leaves nothing behind |
| CoopBlocking.CleanDelivers | linux_layer/ipc/rpc.c:1347-1369 | then every payload, blocking ones included, has gone to its own port |
| CoopBlocking.RequestGoesToClient | linux_layer/ipc/rpc.c:1347-1355 | a run: a nested request waits in the slot, a request that cannot be read is answered, and its client receives the nested request |
| CoopTheorems.CookieIsFresh | linux_layer/ipc/rpc.c:1080-1088 | the next cookie was never issued and no job holds it; the 64-bit counter does not wrap before the core has answered 2^64 - 1 times |
| CoopTheorems.NestedReplyReachesIssuer | linux_layer/ipc/rpc.c:1212-1259 | a nested reply is applied to the job that sent the request with its cookie and to no other; a late one changes nothing |
| CoopTheorems.DuplicateReplyIsIgnored | linux_layer/ipc/rpc.c:1212-1259 | a second copy of a reply changes nothing, whatever the first one led to |
| CoopTheorems.NestedCallParksIff | servers/fs/vfs_coop.c:79-104 | a new request is parked exactly when the slot is free and the core finds the server, has memory and sends or postpones; otherwise the client gets -EIO |
| CoopTheorems.BusySlotFailsSecond | servers/fs/vfs_coop.c:79-104 | two requests on a slow core: the first waits in the slot, the second is answered with -EIO |
| VfsTheorems.StartInOrder | servers/fs/vfs_coop_path.c:388-540 | for every request and every answer of prepares, memory and backends, the handler finishes the job once or parks it once, and a change of the tree at this point is answered with 0 |
| VfsTheorems.ResumeInOrder | servers/fs/vfs_coop_path.c:542-689 | the same for every resume, and the tree afterwards is the one commit or cover of that step, after a successful backend but for a mount |
| VfsTheorems.CreatePrepared | servers/fs/vfs_namespace.c:506-668 | a create or mkdir that will be committed has a free name and a directory to go into |
| VfsTheorems.ChangePrepared | servers/fs/vfs_namespace.c:697-1111 | unlink, rename and link that will be committed meet what their commits rely on |
| VfsTheorems.FailedStart | servers/fs/vfs_coop_path.c:422-540 | an error at the first step means that the tree is as it was |
| VfsTheorems.FailedResume | servers/fs/vfs_coop_path.c:132-145 | an error later on means so, too, but for a create or mkdir whose commit was tried |
| VfsTheorems.FailureChangesTreeIff | servers/fs/vfs_coop_path.c:590-647 | on a tree the prepare accepts, an error comes with a changed tree exactly for an open that has committed its create or mkdir |
| VfsTheorems.OpenFailsAfterCreate | servers/fs/vfs_coop_path.c:590-611 | that happens: the next nested request is refused, the client gets -EIO, and the file is found |
| VfsTheorems.PostCreateFails | servers/fs/vfs_coop_path.c:613-619 | and when the lookup after the create fails |
| VfsRuns.OpenFailsAndLeavesFile | servers/fs/vfs_coop_path.c:590-611 | a run of the server from its start: request, answer of the backend, refused lookup, poll; the client is sent -EIO and the file is found |
| VfsTheorems.MountIgnoresBackend | servers/fs/vfs_coop_path.c:621-628 | a mount covers its directory and answers 0 whatever the backend answered |
| VfsTheorems.ExclusiveOpenFails | servers/fs/vfs_coop_path.c:284-324 | no later step of an open with O_CREAT and O_EXCL answers success |
| VfsRuns.ExclusiveOpensFail | servers/fs/vfs_coop_path.c:284-324 | in every run of the server, with any other requests and failures, such an open is answered with an error, if it is answered |
| VfsServer.StepKeeps | servers/fs/vfs_coop.c:296-321 | every message and poll keeps queue, tree and job contexts consistent |
| VfsServer.ServerIsQueueRun | servers/fs/vfs_coop.c:588-815 | every run of the file server is a run of the queue with programs in order, so the theorems about the queue hold of it |
| VfsServer.NoFileJobIsStranded | servers/fs/vfs_coop.c:129-321 | in every reachable state each job of the file server owes a reply or is parked with a context to go on with |
| VfsServer.FailedJobsLeaveTree | servers/fs/vfs_coop_path.c:542-689 | a job that owes its client an error has changed the tree only if it is an open with O_CREAT, or a mkdir that got no node |
| CoopServer.Server.JobRelease | linux_layer/ipc/rpc.c:1010-1021 | the job object leaves the list and the slot is freed if it was the owner |
| CoopServer.Server.TryIssueNested | servers/fs/vfs_coop.c:79-104 | the retry loop over job objects, owner pointer and the thread's two payload places is the bounded recursion |
| CoopServer.Server.QueuePoll | linux_layer/ipc/rpc.c:1261-1320 | the loop over a list of objects that loses members on the way polls the jobs of the specification |
| CoopServer.Server.TryApplyNestReply | linux_layer/ipc/rpc.c:1212-1259 | the search for the waiting job and the resume |
| CoopServer.Server.Loop | linux_layer/ipc/rpc.c:1412-1484 | a run of the server is a run of the specification |
| NestToken.FormatToken | linux_layer/ipc/rpc.c:869-896 | prints the decimal token exactly when it fits the buffer; the digit array never overflows |
| NestToken.ParseToken | linux_layer/ipc/rpc.c:844-867 | the number of the token modulo 2^64, or 0 when the name is no token |
| NestToken.TokenRoundTrip | linux_layer/ipc/rpc.c:857-896 | every 64-bit cookie survives printing and parsing |
| NestToken.TokenIsInjective | linux_layer/ipc/rpc.c:869-896 | different cookies have different tokens |
| NestToken.TokenIsCanonicalIff | linux_layer/ipc/rpc.c:844-896 | printing undoes parsing exactly for tokens without leading zeros whose number fits 64 bits |
| ReplyPortTlv.FindReplyPort | linux_layer/ipc/rpc.c:102-134 | for every payload a 32-bit length can name: the scan loop with its 32-bit offset arithmetic, and where it reads behind the end |
| ReplyPortTlv.StaysInside | linux_layer/ipc/rpc.c:102-134 | it does not while the payload is shorter than 4 GiB less five bytes |
| ReplyPortTlv.ScanFindsLastPort | linux_layer/ipc/rpc.c:102-134 | on every well-formed payload the scan finds the last non-empty 't' parameter, or nothing |
| ReplyPortTlv.AppendReplyPort | linux_layer/ipc/rpc.c:244-273 | in place, the payload becomes the encoding of its parameters plus the port, or nothing changes when it does not fit |
| ReplyPortTlv.AppendedPortIsFound | linux_layer/ipc/rpc.c:102-134 | the scan returns the port just appended to any well-formed payload |
| ReplyPortTlv.CookieReachesLeaf | servers/fs/vfs_backend_ipc.c:495-511 | the leaf recovers the caller's cookie: print, append, scan and parse compose to the identity |
| CowSteps.StepKeeps | linux_layer/mm/linux_mm_radix.c:522-599 | map, unmap, fork, store, page-table repair and each lock section of a split keep the invariant |
| CowSteps.StepShows | linux_layer/mm/linux_mm_radix.c:522-599 | one step does to the bytes what it would do to private memories |
| CowTheorems.CowRefinesPrivateCopies | include/linux_compat/vspace_copy.h:14-15 | after every run each address space reads what it would read if fork had copied every page |
| CowTheorems.StoreIsPrivate | linux_layer/mm/linux_page_fault_irq.c:266-280 | a store changes what its own page reads and nothing else, in any space |
| CowTheorems.WritableMeansUnshared | linux_layer/mm/linux_mm_radix.c:130-143 | a writable page-table entry means that no other page maps the frame |
| CowTheorems.SharesBalance | linux_layer/mm/linux_mm_radix.c:543-599 | in every state, splits in progress included, a frame has one share per page, pin and new frame that holds it, and is allocated exactly while it has one |
| CowTheorems.NothingLeaks | linux_layer/mm/linux_mm_radix.c:543-599 | when no split is under way every frame is mapped and has one share per mapping |
| CowTheorems.WriteIntentIsStable | linux_layer/mm/linux_mm_radix.c:557-568 | no step promotes a page that is read-only in the radix tree |
| CowTheorems.SplitGivesOwnCopy | linux_layer/mm/linux_mm_radix.c:584-599 | a completed remap leaves the page writable, alone on its frame, with its old bytes |
| CowTheorems.GuardIsCopyOnWrite | linux_layer/mm/linux_page_fault_irq.c:266-280 | in reachable states the fault handler's guard is true exactly for pages that fork has shared |
| CowSteps.ReinstallKeeps | linux_layer/mm/linux_mm_radix.c:174-236 | reinstalling a page-table entry from its leaf keeps the invariant and every byte |
| CowSplit.Memory.CowSplitPage | linux_layer/mm/linux_mm_radix.c:522-599 | succeeds exactly when there is nothing to do or everything works; every other exit restores frames, shares and mappings exactly |
| CowSplit.Memory.CopyAndRemap | linux_layer/mm/linux_mm_radix.c:570-599 | from the pin on: a new private frame with the old bytes, or the state before the pin |
| MapRange.BuddyChunk | linux_layer/mm/linux_mm_radix.c:39-46 | the largest power of two within the buddy limit and the remaining pages |
| MapRange.AddressSpace.FillOneSpan | linux_layer/mm/linux_mm_radix.c:49-63 | maps a prefix of the remaining range to fresh frames, or nothing |
| MapRange.AddressSpace.UnmapPrefix | linux_layer/mm/linux_mm_radix.c:65-87 | unmaps exactly the prefix |
| MapRange.AddressSpace.MapUserRange | linux_layer/mm/linux_mm_radix.c:355-392 | for every pattern of allocator failures: exactly the range, on distinct frames nobody had, or the state as it was; with proper arguments it fails only when a single page was refused |
| MapRange.AddressSpace.UnmapUserRange | linux_layer/mm/linux_mm_radix.c:412-479 | the runs are contiguous and partition the range in order; the call stops only at the first page that is not mapped |
| MapRange.UnmapUndoesMap | linux_layer/mm/linux_mm_radix.c:412-479 | unmapping what was mapped gives the space back, for any frames |
| MapRange.MapUnmapIdentity | linux_layer/mm/linux_mm_radix.c:412-479 | whatever chunks a range was mapped in and whatever runs it is unmapped in, the space is as before |
| MapRange.MapThenUnmap | linux_layer/mm/linux_mm_radix.c:355-479 | a map followed by an unmap of the same range is the identity |
| ExecStack.AuxvIsTerminated | linux_layer/proc/linux_exec_stack.c:139-178 | the vector ends with AT_NULL and has none before; the array never fills up |
| ExecBuild.BuildInitialStack | linux_layer/proc/linux_exec_stack.c:180-348 | a successful call leaves the full image, no two stores overlap, nothing outside [sp, stack_top) changes, and sp is 0 mod 16 on aarch64 and 8 mod 16 on x86_64; when no store is refused it succeeds exactly if the image fits above address 0 |
| ExecBuild.StoreStrings | linux_layer/proc/linux_exec_stack.c:203-241 | every string with its NUL, one behind the other |
| ExecBuild.StorePairs | linux_layer/proc/linux_exec_stack.c:294-309 | the auxiliary vector word by word |
| ExecBuild.StorePointers | linux_layer/proc/linux_exec_stack.c:316-336 | the argv pointers and their NULL |
| ExecBuild.ProgramReads | linux_layer/proc/linux_exec_stack.c:180-348 | from sp a program reads argc, a pointer to each argument's string, and the NULLs of argv and of the empty environment |
| ExecBuild.ProgramReadsAuxv | linux_layer/proc/linux_exec_stack.c:139-178 | and behind them the tags and values of every pair |
| ExecBuild.AuxvIsRight | linux_layer/proc/linux_exec_stack.c:139-178 | looking tags up gives the ELF values, AT_RANDOM points to the random bytes and AT_EXECFN to the name |
| UserMemory.StringIsUnique | linux_layer/proc/linux_exec_stack.c:218-228 | an address holds one NUL-free string only, so a program recovers exactly the argument |
| UserMemory.WordIsUnique | linux_layer/proc/linux_exec_stack.c:36-39 | an address holds one 64-bit value only |
| UserMemory.WordReads | linux_layer/proc/linux_exec_stack.c:36-39 | eight stored bytes read back as the 64-bit value |
| PathAlgebra.NormalizeIsIdempotent | linux_layer/fs/vfs_path.c:111-147 | for every string |
| PathAlgebra.NormalizedComponents | linux_layer/fs/vfs_path.c:32-109 | every component of a result is non-empty, not "." or "..", without slash and shorter than 64 |
| PathAlgebra.NormalizeFits | linux_layer/fs/vfs_path.c:111-147 | a result always fits 256 bytes |
| PathAlgebra.ParentAndBasename | linux_layer/fs/vfs_path.c:161-283 | they split the components at the last one; the parent has a trailing slash |
| PathAlgebra.RootHasNoParent | linux_layer/fs/vfs_path.c:161-283 | both fail exactly for paths that normalize to the root |
| PathAlgebra.JoinIsNormalize | linux_layer/fs/vfs_path.c:314-376 | join with all its special cases is normalize(base "/" rel), when nothing is cut off and not a ".." at the depth limit |
| PathAlgebra.JoinAtTheLimit | linux_layer/fs/vfs_path.c:314-376 | at 32 components the law holds exactly when the path comes back to its base, so never for ".." |
| PathAlgebra.JoinFailsAtTheLimit | linux_layer/fs/vfs_path.c:314-376 | for one, the path with 32 components joined with ".." |
| PathAlgebra.JoinOfParentAndBasename | linux_layer/fs/vfs_path.c:161-376 | join(parent p, basename p) is normalize p for every p but the root |
| PathBuffers.Collapse | linux_layer/fs/vfs_path.c:32-109 | the loops over component arrays and output buffer compute the fold, cut off at the buffer's end; one byte is treated as two |
| PathBuffers.NormalizePath | linux_layer/fs/vfs_path.c:111-147 | for every buffer size: the buffer holds the normalized path, cut off at its end; one byte is treated as two |
| PathBuffers.ParentPath | linux_layer/fs/vfs_path.c:248-283 | for every buffer size: succeeds exactly when there is a parent and it fits, and then holds it whole; one byte is treated as two |
| PathBuffers.BasenamePath | linux_layer/fs/vfs_path.c:161-194 | for every buffer: the basename, cut off at the end; a buffer of 64 bytes holds it whole |
| PathBuffers.JoinPath | linux_layer/fs/vfs_path.c:314-376 | for every buffer size: the buffer holds the joined path, cut off at its end, or the call fails as specified; one byte is treated as two but for "." |
| ChunkedIo.ReadJob.Resume | servers/fs/vfs_coop.c:218-294 | whatever fails, the bytes delivered are those of one read at the original offset, total plus remaining is the count while parked, the handle advances by the total, and a non-negative reply is the total |
| ChunkedIo.ReadJob.Run | servers/fs/vfs_coop.c:129-294 | parked any number of times, the request is one read of min(count, size - offset), and it ends |
| ChunkedWrite.WriteJob.OneChunk | servers/fs/vfs_coop.c:218-294 | a chunk that the backend reports is counted; its bytes are in the file exactly if no dirty entry is flushed over them, or the entry has them already |
| ChunkedWrite.WriteJob.Run | servers/fs/vfs_coop.c:129-294 | the chunks up to the first that the backend refuses are counted and believed; on a file its entry agrees with, they are one write exactly if no chunk is flushed over, or what that chunk lost is restored |
| WriteRun.WriteRunIff | servers/fs/vfs_coop.c:218-294 | the same for every run of chunks and every size the handle believes in: the chunk that drops the entry is given in closed form, and so is what restores it; a last chunk that is flushed over leaves the old size |
| WriteRun.TailIsWritten | servers/fs/vfs_backend_ramfs.c:59-90 | once the entry is gone every chunk is written |
| WriteRun.SizesStay | servers/fs/vfs_backend_ramfs.c:59-90 | during a request the file is never smaller than before nor larger than what was written, and the handle always believes in the latter |
| ChunkedWrite.SecondPageIsLost | servers/fs/vfs_backend_ramfs.c:59-90 | two pages written to a cached file of one page: 8192 is answered and believed, and 4096 bytes are there |
| ChunkedWrite.AppendLeavesAGap | servers/fs/vfs_coop.c:163-166 | an O_APPEND write that follows starts at 8192 |
| ChunkedWrite.ThirdPageRestores | servers/fs/ramfs_layer.c:420-449 | three pages written to a cached page in a buffer of four: the second is flushed over and the third uncovers it, so the file is what was written |
| WriteRun.WrittenIsWriteAt | servers/fs/ramfs_layer.c:420-449 | a write that leaves no gap has one possible result |
| WriteRun.WrittenJoin | servers/fs/vfs_coop.c:218-294 | two adjacent writes are one, a gap before the first included |
| Getdents.Job.PackOne | servers/fs/vfs_coop_path.c:701-738 | one whole record more, never past the caller's buffer, or nothing |
| Getdents.Job.Fill | servers/fs/vfs_coop_path.c:749-804 | the buffer always holds whole records, one for each entry passed, and the end of the call stays what it was |
| Getdents.Job.Resume | servers/fs/vfs_coop_path.c:839-886 | a parked call goes on to the end it was on the way to, with the backend's entry, error or end of directory |
| Getdents.Job.Run | servers/fs/vfs_coop_path.c:806-886 | for every pattern of failures: where the call ends and how, its answer, the records in the buffer, and the offset of the handle |
| Getdents.LosesRecordsIff | servers/fs/vfs_coop_path.c:740-804 | a call moves the handle past records it does not return exactly if it passes every index from the start up to some later one, where it meets a readdir or backend error, a task that is gone or a name too long |
| Getdents.UsedIs | servers/fs/vfs_coop_path.c:693-698 | the bytes used before an index are the length of the records before it |
| Getdents.FirstEntryIsLost | servers/fs/vfs_coop_path.c:764-768 | for one: one record packed, then readdir fails |
| Getdents.ListDirectory | servers/fs/vfs_coop_path.c:806-886 | over any number of calls with any failures, the caller has exactly the records before the handle if and only if no call loses records |
| Getdents.Reclen | servers/fs/vfs_coop_path.c:693-698 | a multiple of 8 with room for header, name and NUL, and less than 8 bytes more |
| Getdents.ParseRecords | servers/fs/vfs_coop_path.c:701-738 | a reader of the records recovers the entries with their next offsets |
| Getdents.GetdentsListsTheDirectory | servers/fs/vfs_coop_path.c:749-886 | calls with any buffer sizes that each hold the next record, nothing failing, list every entry once and in order |
| DirListing.ListedIffFound | servers/fs/vfs_namespace.c:778-864 | the entries of a directory are the two dots and exactly the names that lookup finds in it, none twice |
| PageSlice.FillPages | servers/fs/vfs_page_cache.c:360-422 | the slice holds the file's bytes |
| PageSlice.WritePages | servers/fs/vfs_page_cache.c:676-723 | writing chunk by chunk into pages is one write into the flat file |
| PageCache.Store.FlushEntry | servers/fs/vfs_page_cache.c:216-249 | a dirty entry's bytes and size replace the file's, and that changes the file exactly if the entry was not the file |
| CachedFile.FlushIsIdentityIff | servers/fs/vfs_page_cache.c:216-249 | a flush changes nothing exactly if the entry is the file |
| PageCache.Store.Evict | servers/fs/vfs_page_cache.c:288-314 | the whole new state: a clean entry or one that is flushed goes, and a file changes exactly if it is the victim, its entry is dirty and differs from it; nothing else changes |
| PageCache.Store.Ensure | servers/fs/vfs_page_cache.c:450-537 | an entry is found, or filled with as many bytes as the handle believes in; of all other files and entries only the victim of an eviction changes, and no file that its entry agrees with |
| CachedFile.FillIsCoherentIff | servers/fs/vfs_page_cache.c:424-448 | a filled entry is the file exactly if the handle knows the size |
| PageCache.Store.Read | servers/fs/vfs_page_cache.c:577-618 | what the handle reads; entry and file agree afterwards exactly if there was an entry, none was made, or the handle knows the size; of all other files and entries only the victim of an eviction changes |
| CachedFile.ReadIsRightIff | servers/fs/vfs_page_cache.c:577-618 | for every offset, length and believed size: the read of a file its entry agrees with is the direct read exactly if the handle does not cut it short and no byte behind the entry's end is copied |
| CachedFile.FillingReadIsRightIff | servers/fs/vfs_page_cache.c:577-618 | the read that fills the entry is right exactly if it is not cut short and does not reach behind the end of the file |
| PageCache.Store.SyncWrite | servers/fs/vfs_page_cache.c:748-765 | the part of the write inside the entry goes there, page by page, and the entry is dirty |
| PageCache.Store.Write | servers/fs/vfs_backend_ramfs.c:59-90 | the whole new state of the file, its entry and the handle, for every size the handle believes in; no other file, entry or handle changes |
| CachedFile.WrittenIff | servers/fs/vfs_backend_ramfs.c:59-90 | on every state the bytes of a write that is reported are in the file exactly if no dirty entry is flushed over them, or the entry has them already |
| CachedFile.WrittenIffThere | servers/fs/vfs_backend_ramfs.c:59-90 | on a file its entry agrees with: exactly if the handle does not see the file grow under a dirty entry that is flushed, or the bytes were there before; else the content is the old one |
| CachedFile.WriteKeepsCoherenceIff | servers/fs/vfs_backend_ramfs.c:82-88 | entry and file agree after the write exactly if the handle sees the file grow, there is no entry, or the write stays inside the file |
| CachedFile.WriterKnowsSizeIff | servers/fs/vfs_backend_ramfs.c:82-88 | the handle knows the size after the write exactly if no entry of another size was flushed over it |
| CachedFile.InStepWriteIff | servers/fs/vfs_backend_ramfs.c:59-90 | through a handle that knows the size, all three hold exactly if no dirty entry is flushed over a growing write |
| PageCache.Store.WriteInStep | servers/fs/vfs_backend_ramfs.c:59-90 | the same of the store, and nothing else changes |
| PageCache.Store.Truncate | servers/fs/vfs_backend_ramfs.c:92-113 | the whole new state of the file, its entry and the handle; nothing else changes |
| CachedFile.RecutIff | servers/fs/vfs_backend_ramfs.c:92-113 | the file is cut or padded as asked exactly if no dirty entry is flushed over it, or one that has that very content |
| CachedFile.FlushedCell | servers/fs/vfs_page_cache.c:216-314 | flush and eviction change a file exactly if its entry is dirty, can be copied and differs; they keep agreement |
| PageCache.Store.OpenEmpty | servers/fs/vfs_coop_path.c:649-657 | an open with O_TRUNC truncates the file and gives the handle size 0, whatever the file has |
| PageCache.EmptyOpenIsLost | servers/fs/vfs_coop_path.c:649-657 | for one: the entry was dirty, so the file has kept its byte, the handle has size 0 and a read finds nothing |
| CacheRuns.StepGoodIff | servers/fs/vfs_page_cache.c:424-789 | from a state in which entries are their files and handles know their sizes, an operation does and answers what it would without a cache, and leaves such a state, exactly if it does not change the size of a file with another handle or with a dirty entry that can be flushed |
| CacheRuns.RunIsPlainIff | servers/fs/vfs_page_cache.c:424-789 | the same over any sequence of opens, closes, reads, writes, truncates, flushes and evictions on any files: up to any point all is as without a cache exactly if every operation before was harmless when it came |
| CacheRuns.CacheIsTransparent | servers/fs/vfs_page_cache.c:577-618 | any run of reads, overwrites, flushes, evictions, opens and closes keeps every entry equal to its file, and every read gives what the file holds, for all offsets and lengths |
| CacheRuns.StepSound | servers/fs/vfs_backend_ramfs.c:59-113 | whatever is lost, sizes of files, entries and handles stay within the buffers |
| CacheRuns.Serve | servers/fs/vfs_backend_ramfs.c:40-124 | any sequence of operations on the store is such a run |
| CacheRuns.NewStore | servers/fs/vfs_page_cache.c:316-345 | with no entries and no handles any files are in the state such runs start from |
| PageCache.Store.Flush | servers/fs/vfs_page_cache.c:767-789 | the entry is clean and is the file; the file changes exactly if the entry was dirty and differed; nothing else changes |
| PageCache.OverwriteThenAppend | servers/fs/vfs_backend_ramfs.c:59-90 | on every cached file, an append after an overwrite is lost unless the file was flushed in between |
| PageCache.AppendIsLost | servers/fs/vfs_backend_ramfs.c:59-90 | for one, on a machine that lacks nothing: the append answers 1, the file has kept its size, and the handle believes in one byte more |
| PageCache.ReadBehindTheEnd | servers/fs/vfs_page_cache.c:424-448 | then a read at offset 1 returns a byte that a direct read does not, and the entry differs from the file |
| PageCache.FlushGrowsTheFile | servers/fs/vfs_page_cache.c:216-249 | and an overwrite with a flush makes the file two bytes long |
| PageCache.OverwriteIsLost | servers/fs/vfs_backend_ramfs.c:73-88 | two handles: an overwrite through the one that has not seen the file grow is answered with 1 and lost, although the file does not grow |
| CachedFile.GapIsWhatWasThere | servers/fs/ramfs_layer.c:180-232 | the gap before a write behind the end reads as zeros exactly if the memory there was zero |
| PageCache.WriteBehindTheEnd | servers/fs/ramfs_layer.c:420-449 | for one: a new file, a byte written at offset 1, and offset 0 reads what the memory held |
| CachedFile.StoredIsWritten | servers/fs/ramfs_layer.c:420-449 | a write puts the bytes in place, keeps the others and grows the file if need be |
| CachedFile.ResizedIsTruncated | servers/fs/ramfs_layer.c:451-479 | a truncate cuts the content or pads it with zeros |
| PageCache.NewCapacity | servers/fs/ramfs_layer.c:180-206 | the loop computes the doubled capacity, which is enough and within the limit |
| CachedFile.CapacityTwice | servers/fs/ramfs_layer.c:180-206 | growing in two steps ends at the capacity of growing at once |
| CpioFormat.HexField8 | servers/fs/cpio_rofs.c:75-94 | the loop computes the value of the eight digits |
| CpioFormat.HexRoundTrip | servers/fs/cpio_rofs.c:75-94 | a printed field is read back |
| CpioProofs.LookAtBlock | servers/fs/cpio_rofs.c:220-283 | one round over a serialized entry yields that entry and the offset of the next |
| CpioProofs.ParseOfArchive | servers/fs/cpio_rofs.c:194-286 | parsing the serialization of any entry list plus trailer, whatever follows, gives exactly those entries but the skipped names |
| CpioProofs.ArchiveRoundTrip | servers/fs/cpio_rofs.c:159-286 | and each table entry has its path, mode, link count and type, and points at its own bytes |
| CpioProofs.DataInside | servers/fs/cpio_rofs.c:194-286 | on every image, well formed or not, the data of every accepted entry lie inside it |
| CpioProofs.Init | servers/fs/cpio_rofs.c:194-286 | the cursor loop ends on every image and computes the parse |
| NamespaceTheorems.SiblingsStaySorted | servers/fs/vfs_namespace.c:135-157 | after every interleaving of commits, sibling lists are strictly sorted and free of duplicates, renames of a directory into itself included |
| NamespaceTheorems.StepKeeps | servers/fs/vfs_namespace.c:562-1158 | each commit and each mount keeps lists and parents consistent, even on a tree its prepare never saw, and when no node can be had |
| NamespaceTheorems.ListingIsLookup | servers/fs/vfs_namespace.c:838-863 | readdir from index 2 enumerates, once each and in increasing order, exactly the names lookup finds |
| NamespaceTheorems.LinkIsSeen | servers/fs/vfs_namespace.c:135-157 | a linked node is the only change of lookup; a name that has a node is refused |
| NamespaceProofs.PathIsUnique | servers/fs/vfs_namespace.c:181-227 | no two paths lead to the same node |
| NamespaceProofs.OthersUnchanged | servers/fs/vfs_namespace.c:181-227 | a change of one name in one directory changes the lookup of no path that does not go through it |
| NamespaceRefinement.OnlyMountsHide | servers/fs/vfs_namespace.c:44-58 | a name is hidden from create only in a directory that a mount covers |
| NamespaceRefinement.CreateChangesOnePath | servers/fs/vfs_namespace.c:562-695 | on every tree, mounts included, a prepared create or mkdir changes lookup at its path and nowhere else, and no other node, exactly if no covered node has the name and a node can be had; otherwise no path changes |
| NamespaceRefinement.UnlinkHides | servers/fs/vfs_namespace.c:756-776 | unlink hides its path and what is below it and nothing else, prepared or not |
| NamespaceRefinement.UnlinkChangesOnePath | servers/fs/vfs_namespace.c:697-776 | a prepared unlink changes lookup at its path and nowhere else |
| NamespaceRefinement.UnlinkUndoesCreate | servers/fs/vfs_namespace.c:670-776 | after create and unlink every path is looked up as before, on every tree |
| NamespaceRefinement.RenameIs | servers/fs/vfs_namespace.c:989-1024 | on every tree, prepared or not: a rename whose commit finds what it needs moves the whole subtree and changes no other path, exactly if it does not go into itself, no other node, deleted or covered ones included, has the name, and no mount covers it there; otherwise the whole subtree is gone and nothing else |
| NamespaceRefinement.RenameReady | servers/fs/vfs_namespace.c:989-1024 | in either case the tree stays one that later changes can rely on |
| NamespaceRefinement.RenameOntoTombstone | servers/fs/vfs_namespace.c:906-1024 | create a, create b, unlink b, rename a to b: all succeed and neither name is found |
| NamespaceRefinement.LinkChangesOnePath | servers/fs/vfs_namespace.c:1026-1158 | on every tree, prepared or not: a link shows its path and changes no other, exactly if its commit finds what it needs, no node has the name, deleted ones included, and a node can be had |
| NamespaceRefinement.LinkReady | servers/fs/vfs_namespace.c:1026-1158 | a prepared link leaves a tree that later changes can rely on |
| NamespaceRefinement.CoverChangesBelow | servers/fs/vfs_namespace.c:887-904 | on every tree a mount or its end changes no path but those below it |
| NamespaceInterleaving.CommitActsIff | servers/fs/vfs_namespace.c:562-1158 | on every tree that commits and mounts can lead to, a step acts on all paths as one put, drop, move or replacement of a map exactly if it is intact: unlink, rename, link, mount and umount always are |
| NamespaceInterleaving.CreateActsIff | servers/fs/vfs_namespace.c:254-297 | a create or mkdir is intact exactly if its directory is found and the node of the name, if deleted, has no children to show, or if its directory is not found and the first missing component cannot be shown |
| NamespaceInterleaving.UnlinkActs | servers/fs/vfs_namespace.c:756-776 | an unlink is a drop of its path on every tree |
| NamespaceInterleaving.CoverActs | servers/fs/vfs_namespace.c:887-904 | a mount or its end replaces what is below its path by what the tree has there with the cover on or off, and changes nothing else, on every tree |
| NamespaceInterleaving.MountHides | servers/fs/vfs_namespace.c:44-58 | a mount hides the names below its path that only the boot image has, with all below them, and nothing else |
| NamespaceInterleaving.InterleavedRefinesMap | servers/fs/vfs_namespace.c:506-1158 | after any interleaving of commits, prepared on whatever tree, mounts and umounts, every path leads where the same updates of a map lead, as long as each create is intact when it comes |
| NamespaceInterleaving.TreeRefinesMap | servers/fs/vfs_namespace.c:506-1158 | commits that meet the tree their prepares saw, and mounts and umounts, are intact, so the same holds without that condition, and the tree stays one that later changes can rely on |
| NamespaceInterleaving.EnsurePathGrows | servers/fs/vfs_namespace.c:254-297 | making a path hides nothing, whatever it creates or revives on the way |
| NamespaceInterleaving.StaleCreateBringsDirectoryBack | servers/fs/vfs_namespace.c:670-695 | a create prepared before a rename of its directory brings the old directory back |
| NamespaceStore.Namespace.FindChild | servers/fs/vfs_namespace.c:159-179 | the loop over the siblings |
| NamespaceStore.Namespace.LookupNode | servers/fs/vfs_namespace.c:181-227 | the loop over the components |
| NamespaceStore.Namespace.LinkChild | servers/fs/vfs_namespace.c:135-157 | insertion in place, or refusal of a name that has a node |
| NamespaceStore.Namespace.DetachNode | servers/fs/vfs_namespace.c:866-885 | removal in place |
| NamespaceStore.Namespace.EnsureNodes | servers/fs/vfs_namespace.c:254-297 | creates or revives every component on the way, and stops where no node can be had |
| NamespaceStore.Namespace.CommitCreate | servers/fs/vfs_namespace.c:670-695 | the commit is the specified change of the tree |
| NamespaceStore.Namespace.CommitUnlink | servers/fs/vfs_namespace.c:756-776 | the commit is the specified change of the tree |
| NamespaceStore.Namespace.CommitLink | servers/fs/vfs_namespace.c:1113-1158 | the commit is the specified change of the tree |
| NamespaceStore.Namespace.CommitRename | servers/fs/vfs_namespace.c:989-1024 | the commit is the specified change of the tree |
| NamespaceStore.Namespace.ReaddirAt | servers/fs/vfs_namespace.c:838-863 | the walk finds the visible child with the given number |

## Left out

- Core primitives (ports, message transfer, radix tree, page tables, buddy allocator, page slices): outside the modelled files; their answers are arbitrary.
- Exit code as objects: the protocol steps are functions on values, because the point is their interleaving; in-place update is modelled for the pending list only.
- Which pids a wait4 accepts: the note to take is chosen by an arbitrary test.
- Liveness of the exit protocol: no fairness is assumed, so nothing is said about how soon a spinning handler or a blocked wait4 goes on.
- Signals, sys_waitid and pid reuse.
- The branch of a nested call for a job that is already in NESTED_SEND: no caller takes it.
- CoopTheorems.CookieIsFresh: says nothing about the time after the 64-bit counter has wrapped around.
- CoopTheorems.NothingIsMisdelivered: the blocking sends of the listen thread are no events of these runs; with them it holds exactly under the condition of SoundIffClean and DirectDeliversIff. What the text of such a reply is, is not modelled.
- VfsServer.ServerIsQueueRun: the blocking calls that undo a create, mkdir or link whose commit got no node (vfs_namespace.c:575, 684, 1146) are no part of the programs. Each comes before anything else its resume does to the queue, so it is rounds of CoopBlocking before the reply. It also drops what the thread has received and not yet read (rpc.c:371); the queue of received messages is not part of this model.
- VfsJobs: paths are given as components, credentials, modes and the text of symbolic links as arbitrary answers; the mount table is an arbitrary answer, too, so only the cover flag of a mount is state. The memory of job contexts is not modelled.
- VfsServer.FailedJobsLeaveTree: the exact condition is given for a step that meets a tree its prepare would accept, because another job's commit in between can turn a create that gets no node into one that leaves the directories it made on the way.
- Huge pages, mprotect, lazily filled pages and mapping of files: the flag update of mprotect is made by code outside the modelled files.
- MapRange.AddressSpace.MapUserRange: the address search of map_user_range_search is not modelled, because it only repeats the call.
- ExecBuild.BuildInitialStack: the generator of the random bytes is a parameter.
- vfs_path_direct_child_name and vfs_path_equal: they would only add easy members.
- ChunkedIo.ReadJob.Run: the backend reads one fixed content; what a handle reads that does not know the size is ReadIsRightIff. Another job that moves the shared handle offset between two chunks is not modelled.
- Getdents.ListDirectory: the directory does not change between calls.
- Hard links and unlink in the RAM file system: linked entries share a buffer but not its size, so no coherence law holds for them.
- CacheRuns.Serve: one operation is one step, because the file server and each backend run alone; a handle that two processes share is closed when the last of them closes it.
- ChunkedWrite.WriteJob.Run: other jobs that write, read or flush the file between two chunks are not modelled; a caller that dies or whose memory cannot be read between two chunks is covered by OneChunk. The exact condition is for files whose entry agrees with them; for others OneChunk gives it chunk by chunk.
- PageCache.Store.Evict: the order of the LRU lists is not modelled; the victim is arbitrary.
- CpioProofs.Init: failure to grow the entry table is not modelled; a last name without NUL is read up to the end of the image, where the C code reads on.
- The population of the tree from the boot archive, modes and permissions: an arbitrary tree in order to start with, and arbitrary answers.
- Pipes, file-descriptor tables, syscall dispatch, time, boot and traps: plumbing, or code for which no clean law holds.

/**
 Exit, reap and wait protocol of Linux processes.

 Exiting threads, one clean_server listener per CPU and wait4 callers race over
 the same process objects.  Every lock section, every registry lookup, every
 unlocked store, every list operation and every reference operation of the C code
 is one step here; a run is any sequence of enabled steps, so all interleavings
 are covered.  In particular a pointer that a lookup has returned is used in a
 later step, when the object may be gone.

 Fields marked "history" are written by steps and never read by a guard.
 */
module ExitProtocol {
  import opened Wrappers

  type Pid = nat   // a linux_proc_resource_t; 0 is LINUX_INIT_REAP_PPID
  type Tid = nat
  type Cpu = nat

  const PID_SCAN_MAX: Pid := 4096

  datatype ExitState = Running | Zombie | Notified | Claimed {
    function Rank(): nat {
      match this
      case Running => 0
      case Zombie => 1
      case Notified => 2
      case Claimed => 3
    }
  }

  // Whoever runs linux_proc_reap: a clean_server listener or a thread in wait4.
  datatype Agent = Cleaner(cpu: Cpu) | Waiter(tid: Tid)

  // Places that can hold an exit notification.
  datatype Holder =
    | ParkedJobs(cpu: Cpu)      // clean_exit_notify_jobs of one CPU
    | WaitPort(pid: Pid)        // wait_port_<pid>
    | Pending(pid: Pid)         // pending_exits of one parent
    | Hand(agent: Agent)        // a local variable of an agent

  datatype Note = Note(ppid: Pid, child: Pid, code: int)

  // History: how far linux_proc_reap has come, and who runs it.
  datatype Reap = Unclaimed | MustFini(agent: Agent) | MustPut(agent: Agent) | Reaped(agent: Agent)

  // History: where the notification of a process is.
  datatype Token = NotSent | LiveAt(holder: Holder) | Consumed

  datatype Proc = Proc(
    refcount: int,
    threadNumber: int,
    threads: set<Tid>,
    ppid: Pid,
    exitCode: int,
    exitState: ExitState,
    exitLastThread: bool,
    registered: bool,           // find_proc_by_pid succeeds
    // history
    creator: Pid,
    reap: Reap,
    token: Token,
    lastReaper: Option<Cpu>,    // the listener that detached the last thread
    finiRuns: nat,
    frees: nat,
    commits: nat,
    waited: nat)                // wait4 calls that returned this pid

  datatype Phase = Live | CodeSet | StateSet | HintSet | Queued | Reaping(cpu: Cpu)

  datatype Thread = Thread(res: Option<Pid>, phase: Phase)

  // The next thing an agent does with the process it works on.
  datatype Todo =
    // clean_handle_thread_reap
    | ToDetach(t: Tid)
    | ToDrop
    | ToBundle1
    | ToSpin
    | ToBundle2
    | ToDecide
    | ToCheckParent(parent: Pid, code: int)
    | ToCommit(parent: Pid, code: int)
    | ToNotify(parent: Pid, code: int)
    | ToFindParent(parent: Pid, code: int)   // clean_exit_notify_fallback_pending
    | ToPush(parent: Pid, code: int)
    | ToFinish
    // linux_proc_reap, run by either kind of agent
    | ToClaim
    | ToDrain                                // linux_proc_fini
    | ToScan(candidate: Pid)                 // proc_reparent_children
    | ToAdopt(candidate: Pid)
    | ToPutBase

  datatype Pc =
    | Idle
    | HasThread(t: Tid)                // a handler with a decoded THREAD_REAP
    | On(p: Pid, todo: Todo)
    | InHand(note: Note)               // wait4 with a decoded notification

  // Where a listener is with parked job number i: clean_poll_exit_notify_jobs
  datatype Polling =
    | NoPoll
    | Posting(i: nat)       // the parent was found
    | FallingBack(i: nat)   // the post failed
    | Pushing(i: nat)       // the parent was found again

  datatype State = State(
    procs: map<Pid, Proc>,
    threads: map<Tid, Thread>,
    pcs: map<Agent, Pc>,
    polls: map<Cpu, Polling>,
    looks: map<Tid, Pid>,              // the process a thread has looked up, without a reference
    reapQueue: seq<Tid>,               // THREAD_REAP messages on clean_listen
    mail: map<Holder, seq<Note>>)

  // Result of linux_proc_try_post_exit_notify; Closed is E_REND_PORT_CLOSED,
  // which the code also reports as delivered.
  datatype Try = Delivered | Closed | Again | Fail

  // sys_clone, sys_fork and sys_exit
  datatype ThreadStep =
    | Boot(pid: Pid, tid: Tid)
    | Fork(parent: Tid, pid: Pid, tid: Tid)
    | CloneThread(parent: Tid, tid: Tid)
    | MarkCode(tid: Tid, arg: int)
    | MarkState(tid: Tid)
    | MarkHint(tid: Tid)
    | SendReap(tid: Tid)

  // clean_handle_thread_reap and the poll of parked jobs, on one CPU
  datatype HandlerStep =
    | TakeReap
    | Pin
    | DetachLock
    | DetachPut
    | Bundle1
    | Spin
    | Bundle2
    | Decide
    | CheckParent
    | Commit
    | Notify(outcome: Try, jobRoom: bool)
    | FindParent
    | PushPending(entryRoom: bool)
    | HandlerPut
    | PollFind(i: nat)
    | PollPost(outcome: Try)
    | PollFindParent
    | PollPush(entryRoom: bool)

  // linux_proc_reap
  datatype ReapStep = Claim | DrainOne | DrainDone | ScanMiss | ScanFind | Adopt | Unregister | PutBase

  // sys_wait4
  datatype WaitStep = TakePending(i: nat) | Receive | Stash(entryRoom: bool) | CheckChild(fault: bool)

  // wait4_has_live_child, proc_parent_has_unreaped_child, linux_proc_wait_pid_matches
  // and linux_proc_queue_sigchld: a lookup, and what is done with its pointer
  datatype LookStep = Find(pid: Pid) | Use

  datatype Step =
    | ByThread(thread: ThreadStep)
    | ByHandler(cpu: Cpu, handler: HandlerStep)
    | ByReaper(agent: Agent, reap: ReapStep)
    | ByWaiter(tid: Tid, wait: WaitStep)
    | ByLooker(tid: Tid, look: LookStep)

  const INITIAL := State(map[], map[], map[], map[], map[], [], map[])

  function PcOf(s: State, a: Agent): Pc {
    if a in s.pcs then s.pcs[a] else Idle
  }

  function PollOf(s: State, c: Cpu): Polling {
    if c in s.polls then s.polls[c] else NoPoll
  }

  function Mail(s: State, h: Holder): seq<Note> {
    if h in s.mail then s.mail[h] else []
  }

  function Remove<T>(q: seq<T>, i: nat): seq<T>
    requires i < |q|
  {
    q[..i] + q[i+1..]
  }

  // find_proc_by_pid(pid) != NULL
  predicate Found(s: State, pid: Pid) {
    pid > 0 && pid in s.procs && s.procs[pid].registered
  }

  // proc_has_wait_reaper
  predicate HasWaitReaper(s: State, p: Pid)
    requires p in s.procs
  {
    s.procs[p].ppid > 0 && Found(s, s.procs[p].ppid)
  }

  function SetProc(s: State, p: Pid, x: Proc): State {
    s.(procs := s.procs[p := x])
  }

  function Goto(s: State, a: Agent, pc: Pc): State {
    s.(pcs := s.pcs[a := pc])
  }

  function SetPhase(s: State, t: Tid, ph: Phase): State
    requires t in s.threads
  {
    s.(threads := s.threads[t := s.threads[t].(phase := ph)])
  }

  // ref_put with linux_proc_free_ref
  function Put(x: Proc): Proc {
    x.(refcount := x.refcount - 1, frees := x.frees + if x.refcount == 1 then 1 else 0)
  }

  function SetToken(s: State, c: Pid, k: Token): State
    requires c in s.procs
  {
    SetProc(s, c, s.procs[c].(token := k))
  }

  // The notification is lost: nobody will ever read it.
  function Lose(s: State, n: Note): State
    requires n.child in s.procs
  {
    SetToken(s, n.child, Consumed)
  }

  // Append to a port queue, a job list or a pending list.
  function Enqueue(s: State, h: Holder, n: Note): State
    requires n.child in s.procs
  {
    SetToken(s, n.child, LiveAt(h)).(mail := s.mail[h := Mail(s, h) + [n]])
  }

  // linux_proc_wait_pending_push: the list is part of the parent's object.
  function Push(s: State, n: Note, entryRoom: bool): State
    requires n.child in s.procs
  {
    if entryRoom then Enqueue(s, Pending(n.ppid), n) else Lose(s, n)
  }

  predicate OwnThread(s: State, t: Tid) {
    t in s.threads && s.threads[t].res.Some? && s.threads[t].res.value in s.procs
  }

  // A thread that runs user code, outside wait4 and before sys_exit.
  predicate Runnable(s: State, t: Tid) {
    OwnThread(s, t) && s.threads[t].phase == Live && PcOf(s, Waiter(t)) == Idle
  }

  // What an agent refers to exists.
  predicate PcOn(s: State, a: Agent) {
    match PcOf(s, a)
    case Idle => true
    case HasThread(t) => t in s.threads
    case On(p, todo) => p in s.procs && (todo.ToDetach? ==> todo.t in s.threads)
    case InHand(n) => n.child in s.procs
  }

  predicate ThreadEnabled(s: State, step: ThreadStep) {
    match step
    case Boot(p, t) => p > 0 && p !in s.procs && t !in s.threads
    case Fork(u, p, t) => Runnable(s, u) && p > 0 && p !in s.procs && t !in s.threads
    case CloneThread(u, t) => Runnable(s, u) && t !in s.threads
    case MarkCode(t, _) => Runnable(s, t)
    case MarkState(t) => OwnThread(s, t) && s.threads[t].phase == CodeSet
    case MarkHint(t) => OwnThread(s, t) && s.threads[t].phase == StateSet
    case SendReap(t) => OwnThread(s, t) && s.threads[t].phase == HintSet
  }

  predicate HandlerEnabled(s: State, c: Cpu, step: HandlerStep) {
    var pc, poll := PcOf(s, Cleaner(c)), PollOf(s, c);
    && PcOn(s, Cleaner(c))
    && (poll.NoPoll? || step.PollPost? || step.PollFindParent? || step.PollPush?)
    && (!poll.NoPoll? ==> poll.i < |Mail(s, ParkedJobs(c))| && Mail(s, ParkedJobs(c))[poll.i].child in s.procs)
    && match step
       case TakeReap => pc.Idle? && |s.reapQueue| > 0 && s.reapQueue[0] in s.threads
       case Pin => pc.HasThread? && OwnThread(s, pc.t)
       case DetachLock => pc.On? && pc.todo.ToDetach?
       case DetachPut => pc.On? && pc.todo == ToDrop
       case Bundle1 => pc.On? && pc.todo == ToBundle1
       case Spin => pc.On? && pc.todo == ToSpin
       case Bundle2 => pc.On? && pc.todo == ToBundle2
       case Decide => pc.On? && pc.todo == ToDecide
       case CheckParent => pc.On? && pc.todo.ToCheckParent?
       case Commit => pc.On? && pc.todo.ToCommit?
       case Notify(_, _) => pc.On? && pc.todo.ToNotify?
       case FindParent => pc.On? && pc.todo.ToFindParent?
       case PushPending(_) => pc.On? && pc.todo.ToPush?
       case HandlerPut => pc.On? && pc.todo == ToFinish
       // the listener polls between messages and before it posts a new notification
       case PollFind(i) =>
         && (pc.Idle? || (pc.On? && pc.todo.ToNotify?))
         && i < |Mail(s, ParkedJobs(c))| && Mail(s, ParkedJobs(c))[i].child in s.procs
       case PollPost(_) => poll.Posting?
       case PollFindParent => poll.FallingBack?
       case PollPush(_) => poll.Pushing?
  }

  predicate ReapEnabled(s: State, a: Agent, step: ReapStep) {
    && PcOn(s, a) && PcOf(s, a).On?
    && var On(p, todo) := PcOf(s, a);
       match step
       case Claim => todo == ToClaim
       case DrainOne => todo == ToDrain && |Mail(s, Pending(p))| > 0 && Mail(s, Pending(p))[0].child in s.procs
       case DrainDone => todo == ToDrain && Mail(s, Pending(p)) == []
       case ScanMiss => todo.ToScan? && todo.candidate < PID_SCAN_MAX && !Found(s, todo.candidate)
       case ScanFind => todo.ToScan? && todo.candidate < PID_SCAN_MAX && Found(s, todo.candidate)
       case Adopt => todo.ToAdopt? && todo.candidate in s.procs
       case Unregister => todo.ToScan? && todo.candidate >= PID_SCAN_MAX
       case PutBase => todo == ToPutBase
  }

  predicate WaitEnabled(s: State, t: Tid, step: WaitStep) {
    && OwnThread(s, t)
    && var pp := s.threads[t].res.value;
    && match step
       case TakePending(i) => Runnable(s, t) && i < |Mail(s, Pending(pp))| && Mail(s, Pending(pp))[i].child in s.procs
       case Receive => Runnable(s, t) && |Mail(s, WaitPort(pp))| > 0 && Mail(s, WaitPort(pp))[0].child in s.procs
       case Stash(_) => PcOf(s, Waiter(t)).InHand? && PcOn(s, Waiter(t))
       case CheckChild(_) => PcOf(s, Waiter(t)).InHand? && PcOn(s, Waiter(t))
  }

  // A thread that is attached to its process looks another one up, or uses it.
  predicate LookEnabled(s: State, t: Tid, step: LookStep) {
    && OwnThread(s, t)
    && match step
       case Find(k) => Found(s, k)
       case Use => t in s.looks && s.looks[t] in s.procs
  }

  predicate Enabled(s: State, step: Step) {
    match step
    case ByThread(t) => ThreadEnabled(s, t)
    case ByHandler(c, h) => HandlerEnabled(s, c, h)
    case ByReaper(a, r) => ReapEnabled(s, a, r)
    case ByWaiter(t, w) => WaitEnabled(s, t, w)
    case ByLooker(t, l) => LookEnabled(s, t, l)
  }

  // linux_proc_alloc, linux_proc_attach_thread and register_process
  function NewProc(ppid: Pid, t: Tid): Proc {
    Proc(2, 1, {t}, ppid, 0, Running, false, true,
         ppid, Unclaimed, NotSent, None, 0, 0, 0, 0)
  }

  function DoNew(s: State, p: Pid, t: Tid, ppid: Pid): State {
    s.(procs := s.procs[p := NewProc(ppid, t)], threads := s.threads[t := Thread(Some(p), Live)])
  }

  // linux_proc_attach_thread on the caller's own process
  function DoClone(s: State, u: Tid, t: Tid): State
    requires OwnThread(s, u)
  {
    var p := s.threads[u].res.value;
    var x := s.procs[p];
    SetProc(s, p, x.(refcount := x.refcount + 1, threadNumber := x.threadNumber + 1, threads := x.threads + {t}))
      .(threads := s.threads[t := Thread(Some(p), Live)])
  }

  // linux_proc_mark_exiting, its three parts
  function DoMarkCode(s: State, t: Tid, arg: int): State
    requires OwnThread(s, t)
  {
    var p := s.threads[t].res.value;
    SetPhase(SetProc(s, p, s.procs[p].(exitCode := arg % 256)), t, CodeSet)
  }

  function DoMarkState(s: State, t: Tid): State
    requires OwnThread(s, t)
  {
    var p := s.threads[t].res.value;
    SetPhase(SetProc(s, p, s.procs[p].(exitState := Zombie)), t, StateSet)
  }

  function DoMarkHint(s: State, t: Tid): State
    requires OwnThread(s, t)
  {
    var p := s.threads[t].res.value;
    SetPhase(SetProc(s, p, s.procs[p].(exitLastThread := s.procs[p].threadNumber == 1)), t, HintSet)
  }

  function DoSendReap(s: State, t: Tid): State
    requires t in s.threads
  {
    SetPhase(s, t, Queued).(reapQueue := s.reapQueue + [t])
  }

  function DoTakeReap(s: State, c: Cpu): State
    requires |s.reapQueue| > 0 && s.reapQueue[0] in s.threads
  {
    var t := s.reapQueue[0];
    Goto(SetPhase(s, t, Reaping(c)), Cleaner(c), HasThread(t)).(reapQueue := s.reapQueue[1..])
  }

  // ref_get_not_zero; on a dead object the handler continues without one and
  // ends after delete_thread
  function DoPin(s: State, c: Cpu): State
    requires HandlerEnabled(s, c, Pin)
  {
    var t := PcOf(s, Cleaner(c)).t;
    var p := s.threads[t].res.value;
    var x := s.procs[p];
    if x.refcount == 0 then Goto(s, Cleaner(c), Idle)
    else Goto(SetProc(s, p, x.(refcount := x.refcount + 1)), Cleaner(c), On(p, ToDetach(t)))
  }

  // the lock section of linux_proc_detach_thread, after delete_thread
  function DoDetachLock(s: State, c: Cpu): State
    requires HandlerEnabled(s, c, DetachLock)
  {
    var On(p, ToDetach(t)) := PcOf(s, Cleaner(c));
    var x := s.procs[p];
    var n := if x.threadNumber > 0 then x.threadNumber - 1 else x.threadNumber;
    Goto(SetProc(s, p, x.(threads := x.threads - {t}, threadNumber := n,
                          lastReaper := if n == 0 then Some(c) else x.lastReaper)),
         Cleaner(c), On(p, ToDrop))
      .(threads := s.threads[t := s.threads[t].(res := None)])
  }

  function DoDetachPut(s: State, c: Cpu): State
    requires HandlerEnabled(s, c, DetachPut)
  {
    var p := PcOf(s, Cleaner(c)).p;
    Goto(SetProc(s, p, Put(s.procs[p])), Cleaner(c), On(p, ToBundle1))
  }

  // clean_proc_bundle_detached: first lock section
  function DoBundle1(s: State, c: Cpu): State
    requires HandlerEnabled(s, c, Bundle1)
  {
    var p := PcOf(s, Cleaner(c)).p;
    Goto(s, Cleaner(c),
         if s.procs[p].threadNumber > 0 then
           (if s.procs[p].exitLastThread then On(p, ToSpin) else On(p, ToFinish))
         else On(p, ToBundle2))
  }

  // linux_proc_wait_all_threads_detached: one look at thread_number
  function DoSpin(s: State, c: Cpu): State
    requires HandlerEnabled(s, c, Spin)
  {
    var p := PcOf(s, Cleaner(c)).p;
    if s.procs[p].threadNumber == 0 then Goto(s, Cleaner(c), On(p, ToBundle2)) else s
  }

  // clean_proc_bundle_detached: second lock section
  function DoBundle2(s: State, c: Cpu): State
    requires HandlerEnabled(s, c, Bundle2)
  {
    var p := PcOf(s, Cleaner(c)).p;
    if s.procs[p].threadNumber != 0 then Goto(s, Cleaner(c), On(p, ToFinish))
    else Goto(SetProc(s, p, s.procs[p].(exitLastThread := true)), Cleaner(c), On(p, ToDecide))
  }

  function DoDecide(s: State, c: Cpu): State
    requires HandlerEnabled(s, c, Decide)
  {
    var p := PcOf(s, Cleaner(c)).p;
    var x := s.procs[p];
    Goto(s, Cleaner(c),
         if x.exitState == Claimed || x.exitState == Notified then On(p, ToFinish)
         else if !HasWaitReaper(s, p) then On(p, ToClaim)
         else if x.exitState == Zombie then On(p, ToCheckParent(x.ppid, x.exitCode))
         else On(p, ToFinish))
  }

  function DoCheckParent(s: State, c: Cpu): State
    requires HandlerEnabled(s, c, CheckParent)
  {
    var On(p, ToCheckParent(pp, code)) := PcOf(s, Cleaner(c));
    Goto(s, Cleaner(c), if !Found(s, pp) then On(p, ToClaim) else On(p, ToCommit(pp, code)))
  }

  function DoCommit(s: State, c: Cpu): State
    requires HandlerEnabled(s, c, Commit)
  {
    var On(p, ToCommit(pp, code)) := PcOf(s, Cleaner(c));
    var x := s.procs[p];
    if x.exitState == Zombie then
      Goto(SetProc(s, p, x.(exitState := Notified, commits := x.commits + 1, token := LiveAt(Hand(Cleaner(c))))),
           Cleaner(c), On(p, ToNotify(pp, code)))
    else Goto(s, Cleaner(c), On(p, ToFinish))
  }

  // clean_async_exit_notify
  function DoNotify(s: State, c: Cpu, outcome: Try, jobRoom: bool): State
    requires HandlerEnabled(s, c, Notify(outcome, jobRoom))
  {
    var On(p, ToNotify(pp, code)) := PcOf(s, Cleaner(c));
    var n := Note(pp, p, code);
    match outcome
    case Delivered => Goto(Enqueue(s, WaitPort(pp), n), Cleaner(c), On(p, ToFinish))
    case Closed => Goto(Lose(s, n), Cleaner(c), On(p, ToFinish))
    case Fail => Goto(s, Cleaner(c), On(p, ToFindParent(pp, code)))
    case Again =>
      if jobRoom then Goto(Enqueue(s, ParkedJobs(c), n), Cleaner(c), On(p, ToFinish))
      else Goto(s, Cleaner(c), On(p, ToFindParent(pp, code)))
  }

  // clean_exit_notify_fallback_pending: a pointer, no reference and no lock ...
  function DoFindParent(s: State, c: Cpu): State
    requires HandlerEnabled(s, c, FindParent)
  {
    var On(p, ToFindParent(pp, code)) := PcOf(s, Cleaner(c));
    if Found(s, pp) then Goto(s, Cleaner(c), On(p, ToPush(pp, code)))
    else Goto(Lose(s, Note(pp, p, code)), Cleaner(c), On(p, ToFinish))
  }

  // ... which is used later
  function DoPushPending(s: State, c: Cpu, entryRoom: bool): State
    requires HandlerEnabled(s, c, PushPending(entryRoom))
  {
    var On(p, ToPush(pp, code)) := PcOf(s, Cleaner(c));
    Goto(Push(s, Note(pp, p, code), entryRoom), Cleaner(c), On(p, ToFinish))
  }

  function DoHandlerPut(s: State, c: Cpu): State
    requires HandlerEnabled(s, c, HandlerPut)
  {
    var p := PcOf(s, Cleaner(c)).p;
    Goto(SetProc(s, p, Put(s.procs[p])), Cleaner(c), Idle)
  }

  function SetPoll(s: State, c: Cpu, poll: Polling): State { s.(polls := s.polls[c := poll]) }

  // Parked job number i leaves the list; the listener goes on with the next.
  function Unpark(s: State, c: Cpu, i: nat): State
    requires i < |Mail(s, ParkedJobs(c))|
  {
    SetPoll(s.(mail := s.mail[ParkedJobs(c) := Remove(Mail(s, ParkedJobs(c)), i)]), c, NoPoll)
  }

  // one round of clean_poll_exit_notify_jobs, its four parts
  function DoPollFind(s: State, c: Cpu, i: nat): State
    requires HandlerEnabled(s, c, PollFind(i))
  {
    var n := Mail(s, ParkedJobs(c))[i];
    if Found(s, n.ppid) then SetPoll(s, c, Posting(i)) else Lose(Unpark(s, c, i), n)
  }

  function DoPollPost(s: State, c: Cpu, outcome: Try): State
    requires HandlerEnabled(s, c, PollPost(outcome))
  {
    var i := PollOf(s, c).i;
    var n := Mail(s, ParkedJobs(c))[i];
    match outcome
    case Delivered => Enqueue(Unpark(s, c, i), WaitPort(n.ppid), n)
    case Closed => Lose(Unpark(s, c, i), n)
    case Again => SetPoll(s, c, NoPoll)
    case Fail => SetPoll(s, c, FallingBack(i))
  }

  function DoPollFindParent(s: State, c: Cpu): State
    requires HandlerEnabled(s, c, PollFindParent)
  {
    var i := PollOf(s, c).i;
    var n := Mail(s, ParkedJobs(c))[i];
    if Found(s, n.ppid) then SetPoll(s, c, Pushing(i)) else Lose(Unpark(s, c, i), n)
  }

  function DoPollPush(s: State, c: Cpu, entryRoom: bool): State
    requires HandlerEnabled(s, c, PollPush(entryRoom))
  {
    var i := PollOf(s, c).i;
    Push(Unpark(s, c, i), Mail(s, ParkedJobs(c))[i], entryRoom)
  }

  // the lock section of linux_proc_reap
  function DoClaim(s: State, a: Agent): State
    requires ReapEnabled(s, a, Claim)
  {
    var p := PcOf(s, a).p;
    var x := s.procs[p];
    if x.threadNumber == 0 && (x.exitState == Zombie || x.exitState == Notified) then
      Goto(SetProc(s, p, x.(exitState := Claimed, reap := MustFini(a))), a, On(p, ToDrain))
    else if a.Cleaner? then Goto(s, a, On(p, ToFinish))
    // wait4: -EAGAIN while the pid is still registered, the pid otherwise
    else if Found(s, p) then Goto(SetToken(s, p, Consumed), a, Idle)
    else Goto(SetProc(s, p, x.(token := Consumed, waited := x.waited + 1)), a, Idle)
  }

  // linux_proc_wait_pending_drain: one entry
  function DoDrainOne(s: State, a: Agent): State
    requires ReapEnabled(s, a, DrainOne)
  {
    var h := Pending(PcOf(s, a).p);
    Lose(s.(mail := s.mail[h := Remove(Mail(s, h), 0)]), Mail(s, h)[0])
  }

  // proc_reparent_children: the pointer of a candidate ...
  function DoScan(s: State, a: Agent): State
    requires ReapEnabled(s, a, ScanMiss) || ReapEnabled(s, a, ScanFind)
  {
    var On(p, ToScan(k)) := PcOf(s, a);
    Goto(s, a, On(p, if Found(s, k) then ToAdopt(k) else ToScan(k + 1)))
  }

  // ... and its test and store of ppid
  function DoAdopt(s: State, a: Agent): State
    requires ReapEnabled(s, a, Adopt)
  {
    var On(p, ToAdopt(k)) := PcOf(s, a);
    var s1 := Goto(s, a, On(p, ToScan(k + 1)));
    if s.procs[k].ppid == p then SetProc(s1, k, s.procs[k].(ppid := 0)) else s1
  }

  // unregister_process
  function DoUnregister(s: State, a: Agent): State
    requires ReapEnabled(s, a, Unregister)
  {
    var p := PcOf(s, a).p;
    var x := s.procs[p];
    Goto(SetProc(s, p, x.(registered := false, finiRuns := x.finiRuns + 1, reap := MustPut(a))), a, On(p, ToPutBase))
  }

  // the closing linux_proc_put of linux_proc_reap; wait4 then returns the pid
  function DoPutBase(s: State, a: Agent): State
    requires ReapEnabled(s, a, PutBase)
  {
    var p := PcOf(s, a).p;
    var x := Put(s.procs[p]).(reap := Reaped(a));
    if a.Cleaner? then Goto(SetProc(s, p, x), a, On(p, ToFinish))
    else Goto(SetProc(s, p, x.(token := Consumed, waited := x.waited + 1)), a, Idle)
  }

  function DoTakePending(s: State, t: Tid, i: nat): State
    requires WaitEnabled(s, t, TakePending(i))
  {
    var h := Pending(s.threads[t].res.value);
    var n := Mail(s, h)[i];
    SetToken(Goto(s.(mail := s.mail[h := Remove(Mail(s, h), i)]), Waiter(t), InHand(n)),
             n.child, LiveAt(Hand(Waiter(t))))
  }

  function DoReceive(s: State, t: Tid): State
    requires WaitEnabled(s, t, Receive)
  {
    var h := WaitPort(s.threads[t].res.value);
    var n := Mail(s, h)[0];
    SetToken(Goto(s.(mail := s.mail[h := Remove(Mail(s, h), 0)]), Waiter(t), InHand(n)),
             n.child, LiveAt(Hand(Waiter(t))))
  }

  // the notification of another child goes to the pending list
  function DoStash(s: State, t: Tid, entryRoom: bool): State
    requires WaitEnabled(s, t, Stash(entryRoom))
  {
    var n := PcOf(s, Waiter(t)).note;
    var pp := s.threads[t].res.value;
    Goto(if entryRoom then Enqueue(s, Pending(pp), n) else Lose(s, n), Waiter(t), Idle)
  }

  // the test of wait4_finish_reap that guards linux_proc_reap
  predicate Reapable(s: State, n: Note, pp: Pid)
    requires n.child in s.procs
  {
    var x := s.procs[n.child];
    x.ppid == pp && (x.exitState == Zombie || x.exitState == Notified) && x.exitLastThread
  }

  // wait4_finish_reap up to linux_proc_reap; fault: the status store fails
  function DoCheckChild(s: State, t: Tid, fault: bool): State
    requires WaitEnabled(s, t, CheckChild(fault))
  {
    var n := PcOf(s, Waiter(t)).note;
    if !Reapable(s, n, s.threads[t].res.value) then Goto(Lose(s, n), Waiter(t), Idle)
    else
      var s1 := SetProc(s, n.child, s.procs[n.child].(exitCode := n.code));
      if fault then Goto(Lose(s1, n), Waiter(t), Idle)
      else Goto(s1, Waiter(t), On(n.child, ToClaim))
  }

  function ApplyThread(s: State, step: ThreadStep): State
    requires ThreadEnabled(s, step)
  {
    match step
    case Boot(p, t) => DoNew(s, p, t, 0)
    case Fork(u, p, t) => DoNew(s, p, t, s.threads[u].res.value)
    case CloneThread(u, t) => DoClone(s, u, t)
    case MarkCode(t, arg) => DoMarkCode(s, t, arg)
    case MarkState(t) => DoMarkState(s, t)
    case MarkHint(t) => DoMarkHint(s, t)
    case SendReap(t) => DoSendReap(s, t)
  }

  function ApplyHandler(s: State, c: Cpu, step: HandlerStep): State
    requires HandlerEnabled(s, c, step)
  {
    match step
    case TakeReap => DoTakeReap(s, c)
    case Pin => DoPin(s, c)
    case DetachLock => DoDetachLock(s, c)
    case DetachPut => DoDetachPut(s, c)
    case Bundle1 => DoBundle1(s, c)
    case Spin => DoSpin(s, c)
    case Bundle2 => DoBundle2(s, c)
    case Decide => DoDecide(s, c)
    case CheckParent => DoCheckParent(s, c)
    case Commit => DoCommit(s, c)
    case Notify(r, jobRoom) => DoNotify(s, c, r, jobRoom)
    case FindParent => DoFindParent(s, c)
    case PushPending(entryRoom) => DoPushPending(s, c, entryRoom)
    case HandlerPut => DoHandlerPut(s, c)
    case PollFind(i) => DoPollFind(s, c, i)
    case PollPost(r) => DoPollPost(s, c, r)
    case PollFindParent => DoPollFindParent(s, c)
    case PollPush(entryRoom) => DoPollPush(s, c, entryRoom)
  }

  function ApplyReap(s: State, a: Agent, step: ReapStep): State
    requires ReapEnabled(s, a, step)
  {
    match step
    case Claim => DoClaim(s, a)
    case DrainOne => DoDrainOne(s, a)
    case DrainDone => Goto(s, a, On(PcOf(s, a).p, ToScan(1)))
    case ScanMiss => DoScan(s, a)
    case ScanFind => DoScan(s, a)
    case Adopt => DoAdopt(s, a)
    case Unregister => DoUnregister(s, a)
    case PutBase => DoPutBase(s, a)
  }

  function ApplyWait(s: State, t: Tid, step: WaitStep): State
    requires WaitEnabled(s, t, step)
  {
    match step
    case TakePending(i) => DoTakePending(s, t, i)
    case Receive => DoReceive(s, t)
    case Stash(entryRoom) => DoStash(s, t, entryRoom)
    case CheckChild(fault) => DoCheckChild(s, t, fault)
  }

  // wait4_encode_status, and the two macros that read it back
  function EncodeStatus(code: int): int {
    (code % 256) * 256
  }

  function ExitStatusOf(status: int): int {
    (status / 256) % 256
  }

  function TermSignalOf(status: int): int {
    status % 128
  }

  function ApplyLook(s: State, t: Tid, step: LookStep): State
    requires LookEnabled(s, t, step)
  {
    match step
    case Find(k) => s.(looks := s.looks[t := k])
    case Use => s
  }

  function Apply(s: State, step: Step): State
    requires Enabled(s, step)
  {
    match step
    case ByThread(t) => ApplyThread(s, t)
    case ByHandler(c, h) => ApplyHandler(s, c, h)
    case ByReaper(a, r) => ApplyReap(s, a, r)
    case ByWaiter(t, w) => ApplyWait(s, t, w)
    case ByLooker(t, l) => ApplyLook(s, t, l)
  }

  // The states a run visits: run[i+1] follows from run[i] by one enabled step.
  ghost predicate IsRun(run: seq<State>, steps: seq<Step>) {
    && |run| == |steps| + 1
    && run[0] == INITIAL
    && forall i :: 0 <= i < |steps| ==> Enabled(run[i], steps[i]) && run[i+1] == Apply(run[i], steps[i])
  }
}

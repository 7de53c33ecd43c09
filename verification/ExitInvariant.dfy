/**
 The inductive invariant of the exit protocol.
 */
module ExitInvariant {
  import opened Wrappers
  import opened ExitProtocol

  // Who holds a reference on a process object.
  datatype Ref = BaseRef | ThreadRef(t: Tid) | PinRef(cpu: Cpu) | DropRef(cpu: Cpu)

  predicate Handles(pc: Pc, p: Pid) {
    pc.On? && pc.p == p
  }

  function PinRefs(s: State, p: Pid): set<Ref> {
    set a | a in s.pcs && a.Cleaner? && Handles(s.pcs[a], p) :: PinRef(a.cpu)
  }

  function DropRefs(s: State, p: Pid): set<Ref> {
    set a | a in s.pcs && a.Cleaner? && s.pcs[a] == On(p, ToDrop) :: DropRef(a.cpu)
  }

  function BaseRefs(x: Proc): set<Ref> {
    if x.reap.Reaped? then {} else {BaseRef}
  }

  function ThreadRefs(x: Proc): set<Ref> {
    set t | t in x.threads :: ThreadRef(t)
  }

  // The base reference until the process is reaped, one per attached thread,
  // one per running handler, one per detached thread not yet dropped.
  function Refs(s: State, p: Pid): set<Ref>
    requires p in s.procs
  {
    BaseRefs(s.procs[p]) + ThreadRefs(s.procs[p]) + PinRefs(s, p) + DropRefs(s, p)
  }

  predicate Marked(ph: Phase) {
    ph.StateSet? || ph.HintSet? || ph.Queued? || ph.Reaping?
  }

  ghost predicate ThreadOk(s: State, t: Tid)
    requires t in s.threads
  {
    var th := s.threads[t];
    && (th.res.Some? ==> th.res.value in s.procs && t in s.procs[th.res.value].threads)
    && (!th.phase.Reaping? ==> th.res.Some?)
    && (th.res.Some? && Marked(th.phase) ==> s.procs[th.res.value].exitState != Running)
    && (th.phase.Queued? <==> t in s.reapQueue)
  }

  ghost predicate QueueOk(s: State) {
    && (forall i :: 0 <= i < |s.reapQueue| ==> s.reapQueue[i] in s.threads)
    && (forall i, j :: 0 <= i < j < |s.reapQueue| ==> s.reapQueue[i] != s.reapQueue[j])
  }

  // What one process record says about itself.
  ghost predicate RecordOk(x: Proc) {
    && x.threadNumber == |x.threads|
    && (x.exitState.Rank() >= 2 ==> x.threads == {} && x.exitLastThread)
    && (x.reap.Unclaimed? <==> x.exitState != Claimed)
    && (x.registered <==> x.reap.Unclaimed? || x.reap.MustFini?)
    && x.finiRuns == (if x.reap.MustPut? || x.reap.Reaped? then 1 else 0)
    && x.commits == (if x.token.NotSent? then 0 else 1)
    && (!x.token.NotSent? ==> x.exitState.Rank() >= 2)
    && x.waited <= 1
    && (x.waited > 0 ==> x.token.Consumed?)
    && (x.ppid == x.creator || x.ppid == 0)
    && (!x.reap.Unclaimed? && x.reap.agent.Waiter? ==> x.token.Consumed? || x.token == LiveAt(Hand(x.reap.agent)))
    && (x.threads == {} <==> x.lastReaper.Some?)
    && 0 <= x.exitCode < 256
    && x.refcount >= 0
    && x.frees == (if x.refcount == 0 then 1 else 0)
  }

  // The parent a process was created by has been claimed, so it has no threads
  // and can no longer wait.
  ghost predicate Abandoned(s: State, p: Pid)
    requires p in s.procs
  {
    var c := s.procs[p].creator;
    c == 0 || c !in s.procs || !s.procs[c].reap.Unclaimed?
  }

  // Seen from the process: it was adopted, or its parent is not found any more.
  ghost predicate ParentGone(s: State, p: Pid)
    requires p in s.procs
  {
    var c := s.procs[p].creator;
    s.procs[p].ppid == 0 || c == 0 || c !in s.procs || !s.procs[c].registered
  }

  ghost predicate ParentOk(s: State, p: Pid)
    requires p in s.procs
  {
    var x := s.procs[p];
    && p > 0
    && (x.creator == 0 || x.creator in s.procs)
    && (x.ppid == 0 ==> Abandoned(s, p))
    && (!x.reap.Unclaimed? && x.reap.agent.Cleaner? ==> ParentGone(s, p))
  }

  ghost predicate MembersOk(s: State, p: Pid)
    requires p in s.procs
  {
    forall t :: t in s.procs[p].threads ==> t in s.threads && s.threads[t].res == Some(p)
  }

  // Handler positions from which the notification or the reap still follows.
  predicate BeforeCommit(todo: Todo) {
    todo.ToDrop? || todo.ToBundle1? || todo.ToBundle2? || todo.ToDecide? || todo.ToCheckParent? || todo.ToCommit?
        || todo.ToClaim?
  }

  // Positions inside linux_proc_fini
  predicate Finishing(todo: Todo) { todo.ToDrain? || todo.ToScan? || todo.ToAdopt? }

  // The listener that detached the last thread is still on the way to a decision,
  // and whoever has claimed a process that is still registered is in its fini.
  ghost predicate ReaperOk(s: State, p: Pid)
    requires p in s.procs
  {
    var x := s.procs[p];
    && (x.lastReaper.Some? && x.exitState.Rank() < 2 ==>
          var pc := PcOf(s, Cleaner(x.lastReaper.value));
          Handles(pc, p) && BeforeCommit(pc.todo))
    && (x.reap.MustFini? ==>
          var pc := PcOf(s, x.reap.agent);
          Handles(pc, p) && Finishing(pc.todo))
  }

  ghost predicate HoldsRef(s: State, p: Pid, r: Ref)
    requires p in s.procs
  {
    match r
    case BaseRef => !s.procs[p].reap.Reaped?
    case ThreadRef(t) => t in s.procs[p].threads
    case PinRef(c) => Handles(PcOf(s, Cleaner(c)), p)
    case DropRef(c) => PcOf(s, Cleaner(c)) == On(p, ToDrop)
  }

  ghost predicate IsRefs(rs: set<Ref>, s: State, p: Pid)
    requires p in s.procs
  {
    forall r :: r in rs <==> HoldsRef(s, p, r)
  }

  // refcount is the number of references held.
  ghost predicate RefsOk(s: State, p: Pid)
    requires p in s.procs
  {
    forall rs :: IsRefs(rs, s, p) ==> s.procs[p].refcount == |rs|
  }

  ghost predicate NoteOk(s: State, n: Note, h: Holder) {
    && n.child in s.procs
    && var x := s.procs[n.child];
    && n.ppid == x.creator && n.ppid > 0
    && n.code == x.exitCode
    && x.token == LiveAt(h)
  }

  // Thread t runs in the parent of p and is inside wait4.
  ghost predicate WaiterOn(s: State, a: Agent, p: Pid) {
    && a.Waiter? && p in s.procs && s.procs[p].creator > 0
    && a.tid in s.threads && s.threads[a.tid] == Thread(Some(s.procs[p].creator), Live)
    && s.procs[p].token == LiveAt(Hand(a))
  }

  // All threads are gone and nobody can change the exit status any more.
  ghost predicate Settled(x: Proc) {
    x.threads == {} && x.exitLastThread
  }

  // A candidate that the scan has found and that is a child of p is not claimed.
  ghost predicate AdoptOk(s: State, p: Pid, k: Pid) {
    k in s.procs && (s.procs[k].ppid == p ==> s.procs[k].reap.Unclaimed?)
  }

  ghost predicate HandlerOk(s: State, c: Cpu, p: Pid, todo: Todo)
    requires p in s.procs
  {
    var x := s.procs[p];
    && x.exitState != Running
    && match todo
       case ToDetach(t) => t in s.threads && s.threads[t] == Thread(Some(p), Reaping(c))
       case ToDecide => Settled(x)
       case ToCheckParent(pp, code) => Settled(x) && pp == x.creator && pp > 0 && code == x.exitCode
       case ToCommit(pp, code) => Settled(x) && pp == x.creator && pp > 0 && code == x.exitCode
       case ToNotify(pp, code) => NoteOk(s, Note(pp, p, code), Hand(Cleaner(c)))
       case ToFindParent(pp, code) => NoteOk(s, Note(pp, p, code), Hand(Cleaner(c)))
       case ToPush(pp, code) => NoteOk(s, Note(pp, p, code), Hand(Cleaner(c)))
       case ToClaim => Settled(x) && ParentGone(s, p)
       case ToDrain => x.reap == MustFini(Cleaner(c))
       case ToScan(_) => x.reap == MustFini(Cleaner(c))
       case ToAdopt(k) => x.reap == MustFini(Cleaner(c)) && AdoptOk(s, p, k)
       case ToPutBase => x.reap == MustPut(Cleaner(c))
       case _ => true
  }

  ghost predicate WaiterOk(s: State, t: Tid, p: Pid, todo: Todo)
    requires p in s.procs
  {
    && WaiterOn(s, Waiter(t), p)
    && match todo
       case ToClaim => s.procs[p].exitState == Notified
       case ToDrain => s.procs[p].reap == MustFini(Waiter(t))
       case ToScan(_) => s.procs[p].reap == MustFini(Waiter(t))
       case ToAdopt(k) => s.procs[p].reap == MustFini(Waiter(t)) && AdoptOk(s, p, k)
       case ToPutBase => s.procs[p].reap == MustPut(Waiter(t))
       case _ => false
  }

  ghost predicate PcOk(s: State, a: Agent) {
    match PcOf(s, a)
    case Idle => true
    case HasThread(t) =>
      a.Cleaner? && t in s.threads && s.threads[t].phase == Reaping(a.cpu) && s.threads[t].res.Some?
    case On(p, todo) =>
      p in s.procs && if a.Cleaner? then HandlerOk(s, a.cpu, p, todo) else WaiterOk(s, a.tid, p, todo)
    case InHand(n) =>
      NoteOk(s, n, Hand(a)) && WaiterOn(s, a, n.child) && s.procs[n.child].exitState == Notified
  }

  ghost predicate Addressed(h: Holder, n: Note) {
    match h
    case ParkedJobs(_) => true
    case WaitPort(pp) => n.ppid == pp
    case Pending(pp) => n.ppid == pp
    case Hand(_) => false
  }

  ghost predicate MailOk(s: State, h: Holder) {
    var q := Mail(s, h);
    && (forall i :: 0 <= i < |q| ==> NoteOk(s, q[i], h) && Addressed(h, q[i]))
    && (forall i, j :: 0 <= i < j < |q| ==> q[i].child != q[j].child)
  }

  ghost predicate AllThreads(s: State) { forall t :: t in s.threads ==> ThreadOk(s, t) }
  ghost predicate AllRecords(s: State) { forall p :: p in s.procs ==> RecordOk(s.procs[p]) }
  ghost predicate AllParents(s: State) { forall p :: p in s.procs ==> ParentOk(s, p) }
  ghost predicate AllMembers(s: State) { forall p :: p in s.procs ==> MembersOk(s, p) }
  ghost predicate AllReapers(s: State) { forall p :: p in s.procs ==> ReaperOk(s, p) }
  ghost predicate AllRefs(s: State) { forall p :: p in s.procs ==> RefsOk(s, p) }
  ghost predicate AllPcs(s: State) { forall a :: PcOk(s, a) }
  ghost predicate AllMail(s: State) { forall h :: MailOk(s, h) }

  datatype Part = Queue | Threads | Records | Parents | Members | Reapers | References | Positions | Letters

  ghost predicate Holds(part: Part, s: State) {
    match part
    case Queue => QueueOk(s)
    case Threads => AllThreads(s)
    case Records => AllRecords(s)
    case Parents => AllParents(s)
    case Members => AllMembers(s)
    case Reapers => AllReapers(s)
    case References => AllRefs(s)
    case Positions => AllPcs(s)
    case Letters => AllMail(s)
  }

  // Quantifying over the parts keeps them out of proofs that need none of them.
  ghost predicate Inv(s: State) {
    forall part :: Holds(part, s)
  }

  lemma UnfoldInv(s: State)
    requires Inv(s)
    ensures QueueOk(s) && AllThreads(s) && AllRecords(s) && AllParents(s) && AllMembers(s)
    ensures AllReapers(s) && AllRefs(s) && AllPcs(s) && AllMail(s)
  {
    assert Holds(Queue, s) && Holds(Threads, s) && Holds(Records, s) && Holds(Parents, s) && Holds(Members, s);
    assert Holds(Reapers, s) && Holds(References, s) && Holds(Positions, s) && Holds(Letters, s);
  }

  lemma FoldInv(s: State)
    requires QueueOk(s) && AllThreads(s) && AllRecords(s) && AllParents(s) && AllMembers(s)
    requires AllReapers(s) && AllRefs(s) && AllPcs(s) && AllMail(s)
    ensures Inv(s)
  {
  }

  lemma InvInitial()
    ensures Inv(INITIAL)
  {
    FoldInv(INITIAL);
  }
}

/**
 What the exit protocol guarantees in every reachable state and over every run.
 */
module ExitTheorems {
  import opened ExitProtocol
  import opened ExitInvariant
  import opened ExitFrames
  import opened ExitHandlerSteps
  import opened ExitReapSteps
  import opened ExitMailSteps
  import opened ExitThreadSteps
  import opened ExitFiniStep

  lemma ThreadStepKeeps(s: State, step: ThreadStep)
    requires Inv(s) && ThreadEnabled(s, step)
    ensures Inv(ApplyThread(s, step))
  {
    match step {
      case Boot(p, t) => NewKeeps(s, p, t, 0);
      case Fork(u, p, t) =>
        assert AllThreads(s) && AllRecords(s) by { UnfoldInv(s); }
        AttachedRegistered(s, u);
        NewKeeps(s, p, t, s.threads[u].res.value);
      case CloneThread(u, t) => CloneKeeps(s, u, t);
      case MarkCode(t, arg) => MarkCodeKeeps(s, t, arg);
      case MarkState(t) => MarkStateKeeps(s, t);
      case MarkHint(t) => MarkHintKeeps(s, t);
      case SendReap(t) => SendReapKeeps(s, t);
    }
  }

  lemma HandlerStepKeeps(s: State, c: Cpu, step: HandlerStep)
    requires Inv(s) && HandlerEnabled(s, c, step)
    ensures Inv(ApplyHandler(s, c, step))
  {
    match step {
      case TakeReap => TakeReapKeeps(s, c);
      case Pin => PinKeeps(s, c);
      case DetachLock => DetachLockKeeps(s, c);
      case DetachPut => DetachPutKeeps(s, c);
      case Bundle1 => Bundle1Keeps(s, c);
      case Spin => SpinKeeps(s, c);
      case Bundle2 => Bundle2Keeps(s, c);
      case Decide => DecideKeeps(s, c);
      case CheckParent => CheckParentKeeps(s, c);
      case Commit => CommitKeeps(s, c);
      case Notify(r, jobRoom) => NotifyKeeps(s, c, r, jobRoom);
      case FindParent => FindParentKeeps(s, c);
      case PushPending(entryRoom) => PushPendingKeeps(s, c, entryRoom);
      case HandlerPut => HandlerPutKeeps(s, c);
      case _ => PollKeeps(s, c, step);
    }
  }

  lemma WaitStepKeeps(s: State, t: Tid, step: WaitStep)
    requires Inv(s) && WaitEnabled(s, t, step)
    ensures Inv(ApplyWait(s, t, step))
  {
    match step {
      case TakePending(i) => GraspKeeps(s, t, Pending(s.threads[t].res.value), i);
      case Receive => GraspKeeps(s, t, WaitPort(s.threads[t].res.value), 0);
      case Stash(entryRoom) => StashKeeps(s, t, entryRoom);
      case CheckChild(fault) => CheckChildKeeps(s, t, fault);
    }
  }

  lemma ReapStepKeeps(s: State, a: Agent, step: ReapStep)
    requires Inv(s) && ReapEnabled(s, a, step)
    ensures Inv(ApplyReap(s, a, step))
  {
    match step {
      case Claim => ClaimKeeps(s, a);
      case DrainOne => DrainOneKeeps(s, a);
      case DrainDone => DrainDoneKeeps(s, a);
      case ScanMiss => ScanKeeps(s, a);
      case ScanFind => ScanKeeps(s, a);
      case Adopt => AdoptKeeps(s, a);
      case Unregister => UnregisterKeeps(s, a);
      case PutBase => PutBaseKeeps(s, a);
    }
  }

  lemma StepKeeps(s: State, step: Step)
    requires Inv(s) && Enabled(s, step)
    ensures Inv(Apply(s, step))
  {
    match step {
      case ByThread(t) => ThreadStepKeeps(s, t);
      case ByHandler(c, h) => HandlerStepKeeps(s, c, h);
      case ByReaper(a, r) => ReapStepKeeps(s, a, r);
      case ByWaiter(t, w) => WaitStepKeeps(s, t, w);
      case ByLooker(t, l) => LooksAreUnseen(s, ApplyLook(s, t, l).looks);
    }
  }

  // The invariant does not speak of what threads have looked up.
  lemma LooksAreUnseen(s: State, looks: map<Tid, Pid>)
    requires Inv(s)
    ensures Inv(s.(looks := looks))
  {
    forall part ensures Holds(part, s.(looks := looks)) {
      assert Holds(part, s);
      match part {
        case Queue =>
        case Threads => LookThreads(s, looks);
        case Records =>
        case Parents => LookParents(s, looks);
        case Members => LookMembers(s, looks);
        case Reapers => LookReapers(s, looks);
        case References => LookRefs(s, looks);
        case Positions => LookPcs(s, looks);
        case Letters => LookMail(s, looks);
      }
    }
  }

  lemma LookThreads(s: State, looks: map<Tid, Pid>)
    requires AllThreads(s)
    ensures AllThreads(s.(looks := looks))
  {
    forall t | t in s.threads ensures ThreadOk(s.(looks := looks), t) {
      assert ThreadOk(s, t);
    }
  }

  lemma LookParents(s: State, looks: map<Tid, Pid>)
    requires AllParents(s)
    ensures AllParents(s.(looks := looks))
  {
    forall p | p in s.procs ensures ParentOk(s.(looks := looks), p) {
      assert ParentOk(s, p);
    }
  }

  lemma LookMembers(s: State, looks: map<Tid, Pid>)
    requires AllMembers(s)
    ensures AllMembers(s.(looks := looks))
  {
    forall p | p in s.procs ensures MembersOk(s.(looks := looks), p) {
      assert MembersOk(s, p);
    }
  }

  lemma LookReapers(s: State, looks: map<Tid, Pid>)
    requires AllReapers(s)
    ensures AllReapers(s.(looks := looks))
  {
    forall p | p in s.procs ensures ReaperOk(s.(looks := looks), p) {
      assert ReaperOk(s, p);
    }
  }

  lemma LookRefs(s: State, looks: map<Tid, Pid>)
    requires AllRefs(s)
    ensures AllRefs(s.(looks := looks))
  {
    forall p | p in s.procs ensures RefsOk(s.(looks := looks), p) {
      assert RefsOk(s, p);
      assert Refs(s.(looks := looks), p) == Refs(s, p);
    }
  }

  lemma LookPcs(s: State, looks: map<Tid, Pid>)
    requires AllPcs(s)
    ensures AllPcs(s.(looks := looks))
  {
    forall a ensures PcOk(s.(looks := looks), a) {
      assert PcOk(s, a);
    }
  }

  lemma LookMail(s: State, looks: map<Tid, Pid>)
    requires AllMail(s)
    ensures AllMail(s.(looks := looks))
  {
    forall h ensures MailOk(s.(looks := looks), h) {
      assert MailOk(s, h);
    }
  }

  lemma {:induction false} RunKeeps(run: seq<State>, steps: seq<Step>, i: nat)
    requires IsRun(run, steps) && i <= |steps|
    ensures Inv(run[i])
  {
    if i == 0 {
      InvInitial();
    } else {
      RunKeeps(run, steps, i - 1);
      StepKeeps(run[i-1], steps[i-1]);
    }
  }

  // exit_state only moves forward, in one step ...

  ghost predicate Forward(s: State, s': State) {
    forall p :: p in s.procs ==> p in s'.procs && s.procs[p].exitState.Rank() <= s'.procs[p].exitState.Rank()
  }

  lemma ThreadForward(s: State, step: ThreadStep)
    requires Inv(s) && ThreadEnabled(s, step)
    ensures Forward(s, ApplyThread(s, step))
  {
    if step.MarkState? {
      InvAttached(s, step.tid);
    }
  }

  lemma NotifyForward(s: State, c: Cpu, r: Try, jobRoom: bool)
    requires HandlerEnabled(s, c, Notify(r, jobRoom))
    ensures Forward(s, DoNotify(s, c, r, jobRoom))
  {
  }

  lemma PollForward(s: State, c: Cpu, step: HandlerStep)
    requires HandlerEnabled(s, c, step)
    requires step.PollFind? || step.PollPost? || step.PollFindParent? || step.PollPush?
    ensures Forward(s, ApplyHandler(s, c, step))
  {
    match step {
      case PollFind(i) => PollFindForward(s, c, i);
      case PollPost(r) => PollPostForward(s, c, r);
      case PollFindParent => PollParentForward(s, c);
      case PollPush(entryRoom) => PollPushForward(s, c, entryRoom);
    }
  }

  lemma PollFindForward(s: State, c: Cpu, i: nat)
    requires HandlerEnabled(s, c, PollFind(i))
    ensures Forward(s, DoPollFind(s, c, i))
  {
  }

  lemma PollPostForward(s: State, c: Cpu, r: Try)
    requires HandlerEnabled(s, c, PollPost(r))
    ensures Forward(s, DoPollPost(s, c, r))
  {
  }

  lemma PollParentForward(s: State, c: Cpu)
    requires HandlerEnabled(s, c, PollFindParent)
    ensures Forward(s, DoPollFindParent(s, c))
  {
  }

  lemma PollPushForward(s: State, c: Cpu, entryRoom: bool)
    requires HandlerEnabled(s, c, PollPush(entryRoom))
    ensures Forward(s, DoPollPush(s, c, entryRoom))
  {
  }

  // The parts before the notification
  lemma ThreadReapForward(s: State, c: Cpu, step: HandlerStep)
    requires HandlerEnabled(s, c, step)
    requires step.TakeReap? || step.Pin? || step.DetachLock? || step.DetachPut? || step.HandlerPut? || step.Bundle2?
    ensures Forward(s, ApplyHandler(s, c, step))
  {
    match step {
      case TakeReap => assert Forward(s, DoTakeReap(s, c));
      case Pin => assert Forward(s, DoPin(s, c));
      case DetachLock => assert Forward(s, DoDetachLock(s, c));
      case DetachPut => assert Forward(s, DoDetachPut(s, c));
      case HandlerPut => assert Forward(s, DoHandlerPut(s, c));
      case Bundle2 => assert Forward(s, DoBundle2(s, c));
    }
  }

  lemma CommitForward(s: State, c: Cpu)
    requires HandlerEnabled(s, c, Commit)
    ensures Forward(s, DoCommit(s, c))
  {
  }

  lemma FindParentForward(s: State, c: Cpu)
    requires HandlerEnabled(s, c, FindParent)
    ensures Forward(s, DoFindParent(s, c))
  {
  }

  lemma PushPendingForward(s: State, c: Cpu, entryRoom: bool)
    requires HandlerEnabled(s, c, PushPending(entryRoom))
    ensures Forward(s, DoPushPending(s, c, entryRoom))
  {
  }

  lemma HandlerForward(s: State, c: Cpu, step: HandlerStep)
    requires HandlerEnabled(s, c, step)
    ensures Forward(s, ApplyHandler(s, c, step))
  {
    if step.TakeReap? || step.Pin? || step.DetachLock? || step.DetachPut? || step.HandlerPut? || step.Bundle2? {
      ThreadReapForward(s, c, step);
    } else if step.PollFind? || step.PollPost? || step.PollFindParent? || step.PollPush? {
      PollForward(s, c, step);
    } else if step.Notify? {
      NotifyForward(s, c, step.outcome, step.jobRoom);
    } else if step.Commit? {
      CommitForward(s, c);
    } else if step.FindParent? {
      FindParentForward(s, c);
    } else if step.PushPending? {
      PushPendingForward(s, c, step.entryRoom);
    }
  }

  lemma ReapForward(s: State, a: Agent, step: ReapStep)
    requires ReapEnabled(s, a, step)
    ensures Forward(s, ApplyReap(s, a, step))
  {
    match step {
      case Claim => ClaimForward(s, a);
      case DrainOne => assert Forward(s, DoDrainOne(s, a));
      case Adopt => assert Forward(s, DoAdopt(s, a));
      case Unregister => assert Forward(s, DoUnregister(s, a));
      case PutBase => PutForward(s, a);
      case _ =>
    }
  }

  lemma ClaimForward(s: State, a: Agent)
    requires ReapEnabled(s, a, Claim)
    ensures Forward(s, DoClaim(s, a))
  {
  }

  lemma PutForward(s: State, a: Agent)
    requires ReapEnabled(s, a, PutBase)
    ensures Forward(s, DoPutBase(s, a))
  {
  }

  lemma WaitForward(s: State, t: Tid, step: WaitStep)
    requires WaitEnabled(s, t, step)
    ensures Forward(s, ApplyWait(s, t, step))
  {
    match step {
      case TakePending(i) => assert Forward(s, DoTakePending(s, t, i));
      case Receive => assert Forward(s, DoReceive(s, t));
      case Stash(entryRoom) => assert Forward(s, DoStash(s, t, entryRoom));
      case CheckChild(fault) => assert Forward(s, DoCheckChild(s, t, fault));
    }
  }

  lemma StepForward(s: State, step: Step)
    requires Inv(s) && Enabled(s, step)
    ensures Forward(s, Apply(s, step))
  {
    match step {
      case ByThread(t) => ThreadForward(s, t);
      case ByHandler(c, h) => HandlerForward(s, c, h);
      case ByReaper(a, r) => ReapForward(s, a, r);
      case ByWaiter(t, w) => WaitForward(s, t, w);
      case ByLooker(_, _) =>
    }
  }

  // ... and so over any part of a run.
  lemma {:induction false} ExitStateOnlyMovesForward(run: seq<State>, steps: seq<Step>, i: nat, j: nat)
    requires IsRun(run, steps) && i <= j <= |steps|
    ensures Forward(run[i], run[j])
  {
    if i < j {
      ExitStateOnlyMovesForward(run, steps, i, j - 1);
      RunKeeps(run, steps, j - 1);
      StepForward(run[j-1], steps[j-1]);
    }
  }

  // Every process record, in every state of every run: counters agree with what
  // they count, a notified or claimed process has no thread, linux_proc_fini and
  // the commit of a notification happen at most once, and so does every return
  // of its pid from wait4.
  lemma ProcessRecord(run: seq<State>, steps: seq<Step>, i: nat, p: Pid)
    requires IsRun(run, steps) && i <= |steps| && p in run[i].procs
    ensures var x := run[i].procs[p];
            && x.threadNumber == |x.threads|
            && (x.exitState == Notified || x.exitState == Claimed ==> x.threads == {} && x.exitLastThread)
            && x.finiRuns <= 1 && x.commits <= 1 && x.waited <= x.commits
            && (x.finiRuns == 1 ==> x.exitState == Claimed && !x.registered)
  {
    RunKeeps(run, steps, i);
    assert Holds(Records, run[i]);
    assert RecordOk(run[i].procs[p]);
  }

  // No listener works on p.
  ghost predicate Unhandled(s: State, p: Pid) {
    forall c :: !Handles(PcOf(s, Cleaner(c)), p)
  }

  // Once the last thread is gone and the reap handlers have ended, the process
  // is notified or claimed: no exit is forgotten.
  lemma ExitIsCommitted(run: seq<State>, steps: seq<Step>, i: nat, p: Pid)
    requires IsRun(run, steps) && i <= |steps| && p in run[i].procs
    requires run[i].procs[p].threads == {} && Unhandled(run[i], p)
    ensures run[i].procs[p].exitState == Notified || run[i].procs[p].exitState == Claimed
  {
    RunKeeps(run, steps, i);
    assert Holds(Records, run[i]) && Holds(Reapers, run[i]);
    assert RecordOk(run[i].procs[p]) && ReaperOk(run[i], p);
  }

  // refcount is exactly the base reference until reaped, plus attached threads,
  // plus running handlers, plus detached threads not dropped yet; the object is
  // freed once, at the moment nobody holds a reference.
  lemma ReferencesBalance(run: seq<State>, steps: seq<Step>, i: nat, p: Pid)
    requires IsRun(run, steps) && i <= |steps| && p in run[i].procs
    ensures run[i].procs[p].refcount == |Refs(run[i], p)|
    ensures run[i].procs[p].frees == if Refs(run[i], p) == {} then 1 else 0
  {
    RunKeeps(run, steps, i);
    assert Holds(References, run[i]) && Holds(Records, run[i]);
    assert RefsOk(run[i], p) && RecordOk(run[i].procs[p]);
    RefsAre(run[i], p);
  }

  // The notification of process c is at holder h.
  ghost predicate NotifiedAt(s: State, h: Holder, c: Pid) {
    match h
    case Hand(Cleaner(cpu)) =>
      var pc := PcOf(s, Cleaner(cpu));
      pc.On? && (pc.todo.ToNotify? || pc.todo.ToFindParent? || pc.todo.ToPush?) && pc.p == c
    case Hand(Waiter(t)) =>
      || (PcOf(s, Waiter(t)).InHand? && PcOf(s, Waiter(t)).note.child == c)
      || (PcOf(s, Waiter(t)).On? && PcOf(s, Waiter(t)).p == c)
    case _ => exists j :: 0 <= j < |Mail(s, h)| && Mail(s, h)[j].child == c
  }

  lemma TokenTellsPlace(s: State, h: Holder, c: Pid)
    requires Inv(s) && NotifiedAt(s, h, c)
    ensures c in s.procs && s.procs[c].token == LiveAt(h)
  {
    assert Holds(Positions, s) && Holds(Letters, s);
    if h.Hand? {
      assert PcOk(s, h.agent);
    } else {
      assert MailOk(s, h);
    }
  }

  // A notification is in at most one place, there at most once, and never again
  // anywhere after wait4 has returned its child.
  lemma NotificationIsUnique(run: seq<State>, steps: seq<Step>, i: nat, g: Holder, h: Holder, c: Pid)
    requires IsRun(run, steps) && i <= |steps|
    requires NotifiedAt(run[i], g, c) && NotifiedAt(run[i], h, c)
    ensures g == h && c in run[i].procs && run[i].procs[c].commits == 1 && run[i].procs[c].waited == 0
    ensures forall j, k :: 0 <= j < k < |Mail(run[i], h)| ==> Mail(run[i], h)[j].child != Mail(run[i], h)[k].child
  {
    RunKeeps(run, steps, i);
    TokenTellsPlace(run[i], g, c);
    TokenTellsPlace(run[i], h, c);
    assert Holds(Records, run[i]) && Holds(Letters, run[i]);
    assert RecordOk(run[i].procs[c]) && MailOk(run[i], h);
  }

  // A wait4 that holds a notification gets to reap that child exactly if the store
  // of the status works, and then reports the exit status stored by the last
  // thread that called sys_exit.  If the store fails the notification is gone.
  lemma WaitReapsItsChild(run: seq<State>, steps: seq<Step>, i: nat, t: Tid, fault: bool)
    requires IsRun(run, steps) && i <= |steps| && PcOf(run[i], Waiter(t)).InHand?
    ensures WaitEnabled(run[i], t, CheckChild(fault))
    ensures var s, n := run[i], PcOf(run[i], Waiter(t)).note;
            var s1 := DoCheckChild(s, t, fault);
            && (PcOf(s1, Waiter(t)) == On(n.child, ToClaim) <==> !fault)
            && (fault ==>
                    PcOf(s1, Waiter(t)) == Idle && s1.procs[n.child].token == Consumed && s1.procs[n.child].waited == 0)
            && ExitStatusOf(EncodeStatus(n.code)) == s.procs[n.child].exitCode
            && TermSignalOf(EncodeStatus(n.code)) == 0
  {
    var s, n := run[i], PcOf(run[i], Waiter(t)).note;
    RunKeeps(run, steps, i);
    NoteReapable(s, t);
    InvFocus(s, Waiter(t), n.child);
    StatusRoundTrip(n.code);
  }

  // The claim that follows succeeds, whatever has happened in between.
  lemma WaiterClaims(run: seq<State>, steps: seq<Step>, i: nat, t: Tid, c: Pid)
    requires IsRun(run, steps) && i <= |steps| && PcOf(run[i], Waiter(t)) == On(c, ToClaim)
    ensures ReapEnabled(run[i], Waiter(t), Claim)
    ensures var s1 := DoClaim(run[i], Waiter(t));
            PcOf(s1, Waiter(t)) == On(c, ToDrain) && s1.procs[c].reap == MustFini(Waiter(t))
  {
    RunKeeps(run, steps, i);
    assert PcOk(run[i], Waiter(t)) by { assert Holds(Positions, run[i]); }
    InvFocus(run[i], Waiter(t), c);
  }

  // ---- a notification that is gone

  // It stays gone, and wait4 never returns the child.
  ghost predicate StaysGone(s: State, s': State, p: Pid) {
    p in s.procs && s.procs[p].token == Consumed ==>
      p in s'.procs && s'.procs[p].token == Consumed && s'.procs[p].waited == s.procs[p].waited
  }

  // The notes that a step moves have a token.
  lemma HandlerStaysGone(s: State, c: Cpu, step: HandlerStep, p: Pid)
    requires Inv(s) && HandlerEnabled(s, c, step)
    ensures StaysGone(s, ApplyHandler(s, c, step), p)
  {
    assert PcOk(s, Cleaner(c)) by { assert Holds(Positions, s); }
    if p in s.procs {
      assert RecordOk(s.procs[p]) by { assert Holds(Records, s); }
      if step.PollFind? || step.PollPost? || step.PollFindParent? || step.PollPush? {
        assert MailOk(s, ParkedJobs(c)) by { assert Holds(Letters, s); }
        PollStaysGone(s, c, step, p);
      } else if step.Notify? {
        NotifyStaysGone(s, c, step.outcome, step.jobRoom, p);
      } else if step.FindParent? || step.PushPending? {
        FallbackStaysGone(s, c, step, p);
      } else {
        OwnStaysGone(s, c, step, p);
      }
    }
  }

  lemma FallbackStaysGone(s: State, c: Cpu, step: HandlerStep, p: Pid)
    requires HandlerEnabled(s, c, step) && (step.FindParent? || step.PushPending?) && PcOk(s, Cleaner(c))
             && p in s.procs
    ensures StaysGone(s, ApplyHandler(s, c, step), p)
  {
  }

  lemma OwnStaysGone(s: State, c: Cpu, step: HandlerStep, p: Pid)
    requires HandlerEnabled(s, c, step) && p in s.procs && RecordOk(s.procs[p])
    requires !step.PollFind? && !step.PollPost? && !step.PollFindParent? && !step.PollPush?
    requires !step.Notify? && !step.FindParent? && !step.PushPending?
    ensures StaysGone(s, ApplyHandler(s, c, step), p)
  {
  }

  lemma NotifyStaysGone(s: State, c: Cpu, r: Try, jobRoom: bool, p: Pid)
    requires HandlerEnabled(s, c, Notify(r, jobRoom)) && PcOk(s, Cleaner(c)) && p in s.procs
    ensures StaysGone(s, DoNotify(s, c, r, jobRoom), p)
  {
  }

  lemma PollStaysGone(s: State, c: Cpu, step: HandlerStep, p: Pid)
    requires HandlerEnabled(s, c, step) && MailOk(s, ParkedJobs(c)) && p in s.procs
    requires step.PollFind? || step.PollPost? || step.PollFindParent? || step.PollPush?
    ensures StaysGone(s, ApplyHandler(s, c, step), p)
  {
    var i := if step.PollFind? then step.i else PollOf(s, c).i;
    assert NoteOk(s, Mail(s, ParkedJobs(c))[i], ParkedJobs(c));
  }

  lemma ReapStaysGone(s: State, a: Agent, step: ReapStep, p: Pid)
    requires Inv(s) && ReapEnabled(s, a, step)
    ensures StaysGone(s, ApplyReap(s, a, step), p)
  {
    assert PcOk(s, a) by { assert Holds(Positions, s); }
    if step.DrainOne? {
      assert MailOk(s, Pending(PcOf(s, a).p)) by { assert Holds(Letters, s); }
    }
  }

  lemma WaitStaysGone(s: State, t: Tid, step: WaitStep, p: Pid)
    requires Inv(s) && WaitEnabled(s, t, step)
    ensures StaysGone(s, ApplyWait(s, t, step), p)
  {
    var pp := s.threads[t].res.value;
    assert PcOk(s, Waiter(t)) by { assert Holds(Positions, s); }
    assert MailOk(s, Pending(pp)) && MailOk(s, WaitPort(pp)) by { assert Holds(Letters, s); }
  }

  lemma ThreadStaysGone(s: State, step: ThreadStep, p: Pid)
    requires ThreadEnabled(s, step)
    ensures StaysGone(s, ApplyThread(s, step), p)
  {
  }

  lemma StepStaysGone(s: State, step: Step, p: Pid)
    requires Inv(s) && Enabled(s, step)
    ensures StaysGone(s, Apply(s, step), p)
  {
    match step {
      case ByThread(t) => ThreadStaysGone(s, t, p);
      case ByHandler(c, h) => HandlerStaysGone(s, c, h, p);
      case ByReaper(a, r) => ReapStaysGone(s, a, r, p);
      case ByWaiter(t, w) => WaitStaysGone(s, t, w, p);
      case ByLooker(_, _) =>
    }
  }

  lemma {:induction false} LostNotificationIsFinal(run: seq<State>, steps: seq<Step>, i: nat, j: nat, p: Pid)
    requires IsRun(run, steps) && i <= j <= |steps|
    ensures StaysGone(run[i], run[j], p)
  {
    if i < j {
      LostNotificationIsFinal(run, steps, i, j - 1, p);
      NextStaysGone(run, steps, j, p);
      StaysGoneTwice(run[i], run[j - 1], run[j], p);
    }
  }

  lemma StaysGoneTwice(s: State, s1: State, s2: State, p: Pid)
    requires StaysGone(s, s1, p) && StaysGone(s1, s2, p)
    ensures StaysGone(s, s2, p)
  {
  }

  lemma NextStaysGone(run: seq<State>, steps: seq<Step>, j: nat, p: Pid)
    requires IsRun(run, steps) && 0 < j <= |steps|
    ensures StaysGone(run[j - 1], run[j], p)
  {
    RunKeeps(run, steps, j - 1);
    StepStaysGone(run[j - 1], steps[j - 1], p);
  }

  lemma StatusRoundTrip(code: int)
    requires 0 <= code < 256
    ensures ExitStatusOf(EncodeStatus(code)) == code && TermSignalOf(EncodeStatus(code)) == 0
  {
  }

  // ---- use of process objects

  // The note a polling listener is at
  function PolledNote(s: State, c: Cpu, i: nat): Note
    requires i < |Mail(s, ParkedJobs(c))|
  {
    Mail(s, ParkedJobs(c))[i]
  }

  // The process objects a step reads or writes through a pointer.  A lookup in the
  // registry returns a pointer and does not use it.
  function Touched(s: State, step: Step): set<Pid>
    requires Enabled(s, step)
  {
    match step
    case ByThread(Boot(_, _)) => {}
    case ByThread(Fork(u, _, _)) => {s.threads[u].res.value}
    case ByThread(CloneThread(u, _)) => {s.threads[u].res.value}
    case ByThread(t) => {s.threads[t.tid].res.value}
    case ByHandler(_, TakeReap) => {}
    case ByHandler(c, Pin) => {s.threads[PcOf(s, Cleaner(c)).t].res.value}
    case ByHandler(c, PushPending(_)) => {PcOf(s, Cleaner(c)).p, PcOf(s, Cleaner(c)).todo.parent}
    case ByHandler(_, PollFind(_)) => {}
    case ByHandler(c, PollPush(_)) =>
      var n := PolledNote(s, c, PollOf(s, c).i);
      {n.child, n.ppid}
    case ByHandler(c, PollPost(_)) => {PolledNote(s, c, PollOf(s, c).i).child}
    case ByHandler(c, PollFindParent) => {PolledNote(s, c, PollOf(s, c).i).child}
    case ByHandler(c, _) => {PcOf(s, Cleaner(c)).p}
    case ByReaper(a, ScanMiss) => {}
    case ByReaper(a, ScanFind) => {}
    case ByReaper(a, Adopt) => {PcOf(s, a).todo.candidate}
    case ByReaper(a, _) => {PcOf(s, a).p}
    case ByWaiter(t, TakePending(_)) => {s.threads[t].res.value}
    case ByWaiter(t, Receive) => {s.threads[t].res.value, Mail(s, WaitPort(s.threads[t].res.value))[0].child}
    case ByWaiter(t, _) => {s.threads[t].res.value, PcOf(s, Waiter(t)).note.child}
    case ByLooker(t, Find(_)) => {s.threads[t].res.value}
    case ByLooker(t, Use) => {s.threads[t].res.value, s.looks[t]}
  }

  // What of a process is in its object: the counters, the marks of its exit and the
  // head of its pending list.  The registry is elsewhere, and history is nowhere.
  ghost predicate SameObject(s: State, s': State, q: Pid)
    requires q in s.procs && q in s'.procs
  {
    var x, y := s.procs[q], s'.procs[q];
    && y.refcount == x.refcount && y.threadNumber == x.threadNumber && y.threads == x.threads && y.ppid == x.ppid
    && y.exitCode == x.exitCode && y.exitState == x.exitState && y.exitLastThread == x.exitLastThread
    && Mail(s', Pending(q)) == Mail(s, Pending(q))
  }

  lemma ThreadWrites(s: State, step: ThreadStep, q: Pid)
    requires ThreadEnabled(s, step) && q in s.procs && q !in Touched(s, ByThread(step))
    ensures q in ApplyThread(s, step).procs && SameObject(s, ApplyThread(s, step), q)
  {
  }

  lemma DetachWrites(s: State, c: Cpu, step: HandlerStep, q: Pid)
    requires HandlerEnabled(s, c, step) && q in s.procs && q !in Touched(s, ByHandler(c, step))
    requires step.TakeReap? || step.Pin? || step.DetachLock? || step.DetachPut? || step.HandlerPut?
    ensures q in ApplyHandler(s, c, step).procs && SameObject(s, ApplyHandler(s, c, step), q)
  {
  }

  lemma DecideWrites(s: State, c: Cpu, step: HandlerStep, q: Pid)
    requires HandlerEnabled(s, c, step) && q in s.procs && q !in Touched(s, ByHandler(c, step))
    requires step.Bundle1? || step.Spin? || step.Bundle2? || step.Decide? || step.CheckParent? || step.Commit?
    ensures q in ApplyHandler(s, c, step).procs && SameObject(s, ApplyHandler(s, c, step), q)
  {
    match step {
      case Bundle1 => assert SameObject(s, DoBundle1(s, c), q);
      case Spin => assert SameObject(s, DoSpin(s, c), q);
      case Bundle2 => BundleWrites(s, c, q);
      case Decide => assert SameObject(s, DoDecide(s, c), q);
      case CheckParent => assert SameObject(s, DoCheckParent(s, c), q);
      case Commit => CommitWrites(s, c, q);
    }
  }

  lemma BundleWrites(s: State, c: Cpu, q: Pid)
    requires HandlerEnabled(s, c, Bundle2) && q in s.procs && q != PcOf(s, Cleaner(c)).p
    ensures q in DoBundle2(s, c).procs && SameObject(s, DoBundle2(s, c), q)
  {
  }

  lemma CommitWrites(s: State, c: Cpu, q: Pid)
    requires HandlerEnabled(s, c, Commit) && q in s.procs && q != PcOf(s, Cleaner(c)).p
    ensures q in DoCommit(s, c).procs && SameObject(s, DoCommit(s, c), q)
  {
  }

  // Posting and parking change no object, a push that of the parent, a loss none.
  lemma PostWrites(s: State, h: Holder, n: Note, q: Pid)
    requires n.child in s.procs && q in s.procs && h != Pending(q)
    ensures q in Enqueue(s, h, n).procs && SameObject(s, Enqueue(s, h, n), q)
    ensures q in Lose(s, n).procs && SameObject(s, Lose(s, n), q)
  {
  }

  lemma NotifyWrites(s: State, c: Cpu, r: Try, jobRoom: bool, q: Pid)
    requires HandlerEnabled(s, c, Notify(r, jobRoom)) && q in s.procs
    ensures q in DoNotify(s, c, r, jobRoom).procs && SameObject(s, DoNotify(s, c, r, jobRoom), q)
  {
    var On(p, ToNotify(pp, code)) := PcOf(s, Cleaner(c));
    PostWrites(s, WaitPort(pp), Note(pp, p, code), q);
    PostWrites(s, ParkedJobs(c), Note(pp, p, code), q);
  }

  lemma FindParentWrites(s: State, c: Cpu, q: Pid)
    requires HandlerEnabled(s, c, FindParent) && q in s.procs
    ensures q in DoFindParent(s, c).procs && SameObject(s, DoFindParent(s, c), q)
  {
    var On(p, ToFindParent(pp, code)) := PcOf(s, Cleaner(c));
    PostWrites(s, ParkedJobs(c), Note(pp, p, code), q);
  }

  lemma PushWrites(s: State, c: Cpu, entryRoom: bool, q: Pid)
    requires HandlerEnabled(s, c, PushPending(entryRoom)) && q in s.procs && q != PcOf(s, Cleaner(c)).todo.parent
    ensures q in DoPushPending(s, c, entryRoom).procs && SameObject(s, DoPushPending(s, c, entryRoom), q)
  {
    var On(p, ToPush(pp, code)) := PcOf(s, Cleaner(c));
    PostWrites(s, Pending(pp), Note(pp, p, code), q);
  }

  lemma UnparkWrites(s: State, c: Cpu, i: nat, h: Holder, q: Pid)
    requires i < |Mail(s, ParkedJobs(c))| && Mail(s, ParkedJobs(c))[i].child in s.procs
    requires q in s.procs && h != Pending(q)
    ensures var n, s1 := Mail(s, ParkedJobs(c))[i], Unpark(s, c, i);
            && q in Enqueue(s1, h, n).procs && SameObject(s, Enqueue(s1, h, n), q)
            && q in Lose(s1, n).procs && SameObject(s, Lose(s1, n), q)
  {
    PostWrites(Unpark(s, c, i), h, Mail(s, ParkedJobs(c))[i], q);
  }

  lemma PollWrites(s: State, c: Cpu, step: HandlerStep, q: Pid)
    requires HandlerEnabled(s, c, step) && q in s.procs && (step.PollFind? || step.PollPost? || step.PollFindParent?)
    ensures q in ApplyHandler(s, c, step).procs && SameObject(s, ApplyHandler(s, c, step), q)
  {
    match step {
      case PollFind(i) => PollFindWrites(s, c, i, q);
      case PollPost(r) => PollPostWrites(s, c, r, q);
      case PollFindParent => PollParentWrites(s, c, q);
    }
  }

  lemma PollFindWrites(s: State, c: Cpu, i: nat, q: Pid)
    requires HandlerEnabled(s, c, PollFind(i)) && q in s.procs
    ensures q in DoPollFind(s, c, i).procs && SameObject(s, DoPollFind(s, c, i), q)
  {
    UnparkWrites(s, c, i, WaitPort(PolledNote(s, c, i).ppid), q);
  }

  lemma PollPostWrites(s: State, c: Cpu, r: Try, q: Pid)
    requires HandlerEnabled(s, c, PollPost(r)) && q in s.procs
    ensures q in DoPollPost(s, c, r).procs && SameObject(s, DoPollPost(s, c, r), q)
  {
    UnparkWrites(s, c, PollOf(s, c).i, WaitPort(PolledNote(s, c, PollOf(s, c).i).ppid), q);
  }

  lemma PollParentWrites(s: State, c: Cpu, q: Pid)
    requires HandlerEnabled(s, c, PollFindParent) && q in s.procs
    ensures q in DoPollFindParent(s, c).procs && SameObject(s, DoPollFindParent(s, c), q)
  {
    UnparkWrites(s, c, PollOf(s, c).i, WaitPort(PolledNote(s, c, PollOf(s, c).i).ppid), q);
  }

  lemma PollPushWrites(s: State, c: Cpu, entryRoom: bool, q: Pid)
    requires HandlerEnabled(s, c, PollPush(entryRoom)) && q in s.procs && q != PolledNote(s, c, PollOf(s, c).i).ppid
    ensures q in DoPollPush(s, c, entryRoom).procs && SameObject(s, DoPollPush(s, c, entryRoom), q)
  {
    UnparkWrites(s, c, PollOf(s, c).i, Pending(PolledNote(s, c, PollOf(s, c).i).ppid), q);
  }

  lemma HandlerWrites(s: State, c: Cpu, step: HandlerStep, q: Pid)
    requires HandlerEnabled(s, c, step) && q in s.procs && q !in Touched(s, ByHandler(c, step))
    ensures q in ApplyHandler(s, c, step).procs && SameObject(s, ApplyHandler(s, c, step), q)
  {
    match step {
      case Notify(r, jobRoom) => NotifyWrites(s, c, r, jobRoom, q);
      case FindParent => FindParentWrites(s, c, q);
      case PushPending(entryRoom) => PushWrites(s, c, entryRoom, q);
      case PollFind(_) => PollWrites(s, c, step, q);
      case PollPost(_) => PollWrites(s, c, step, q);
      case PollFindParent => PollWrites(s, c, step, q);
      case PollPush(entryRoom) => PollPushWrites(s, c, entryRoom, q);
      case _ =>
        if step.TakeReap? || step.Pin? || step.DetachLock? || step.DetachPut? || step.HandlerPut? {
          DetachWrites(s, c, step, q);
        } else {
          DecideWrites(s, c, step, q);
        }
    }
  }

  lemma FiniWrites(s: State, a: Agent, step: ReapStep, q: Pid)
    requires ReapEnabled(s, a, step) && q in s.procs && q !in Touched(s, ByReaper(a, step))
    requires step.DrainOne? || step.DrainDone? || step.ScanMiss? || step.ScanFind? || step.Adopt?
    ensures q in ApplyReap(s, a, step).procs && SameObject(s, ApplyReap(s, a, step), q)
  {
  }

  lemma ReaperWrites(s: State, a: Agent, step: ReapStep, q: Pid)
    requires ReapEnabled(s, a, step) && q in s.procs && q !in Touched(s, ByReaper(a, step))
    ensures q in ApplyReap(s, a, step).procs && SameObject(s, ApplyReap(s, a, step), q)
  {
    match step {
      case Claim => ClaimWrites(s, a, q);
      case Unregister => assert SameObject(s, DoUnregister(s, a), q);
      case PutBase => assert SameObject(s, DoPutBase(s, a), q);
      case _ => FiniWrites(s, a, step, q);
    }
  }

  lemma ClaimWrites(s: State, a: Agent, q: Pid)
    requires ReapEnabled(s, a, Claim) && q in s.procs && q != PcOf(s, a).p
    ensures q in DoClaim(s, a).procs && SameObject(s, DoClaim(s, a), q)
  {
    var s' := DoClaim(s, a);
    assert s'.procs == s.procs || s'.procs == s.procs[PcOf(s, a).p := s'.procs[PcOf(s, a).p]];
    assert s'.mail == s.mail;
  }

  lemma WaiterWrites(s: State, t: Tid, step: WaitStep, q: Pid)
    requires WaitEnabled(s, t, step) && q in s.procs && q !in Touched(s, ByWaiter(t, step))
    ensures q in ApplyWait(s, t, step).procs && SameObject(s, ApplyWait(s, t, step), q)
  {
    match step {
      case TakePending(i) => assert SameObject(s, DoTakePending(s, t, i), q);
      case Receive => ReceiveWrites(s, t, q);
      case Stash(entryRoom) => StashWrites(s, t, entryRoom, q);
      case CheckChild(fault) => assert SameObject(s, DoCheckChild(s, t, fault), q);
    }
  }

  lemma ReceiveWrites(s: State, t: Tid, q: Pid)
    requires WaitEnabled(s, t, Receive) && q in s.procs && q !in Touched(s, ByWaiter(t, Receive))
    ensures q in DoReceive(s, t).procs && SameObject(s, DoReceive(s, t), q)
  {
  }

  lemma StashWrites(s: State, t: Tid, entryRoom: bool, q: Pid)
    requires WaitEnabled(s, t, Stash(entryRoom)) && q in s.procs && q !in Touched(s, ByWaiter(t, Stash(entryRoom)))
    ensures q in DoStash(s, t, entryRoom).procs && SameObject(s, DoStash(s, t, entryRoom), q)
  {
  }

  // Every object that a step changes is among those it touches.
  lemma WritesAreTouched(s: State, step: Step, q: Pid)
    requires Enabled(s, step) && q in s.procs && q !in Touched(s, step)
    ensures q in Apply(s, step).procs && SameObject(s, Apply(s, step), q)
  {
    match step {
      case ByThread(t) => ThreadWrites(s, t, q);
      case ByHandler(c, h) => HandlerWrites(s, c, h, q);
      case ByReaper(a, r) => ReaperWrites(s, a, r, q);
      case ByWaiter(t, w) => WaiterWrites(s, t, w, q);
      case ByLooker(_, _) =>
    }
  }

  // Among these, the ones used through a pointer that an earlier step found in the
  // registry or in a parked job, without a reference: the parent of a fallback push,
  // child and parent of a parked job, a candidate of the pid scan that is not a
  // child of the process being reaped, and what a thread in wait4 or sys_exit has
  // looked up.
  function Borrowed(s: State, step: Step): set<Pid>
    requires Enabled(s, step)
  {
    match step
    case ByHandler(c, PushPending(_)) =>
      if PcOf(s, Cleaner(c)).todo.parent == PcOf(s, Cleaner(c)).p then {} else {PcOf(s, Cleaner(c)).todo.parent}
    case ByHandler(c, PollPost(_)) => Touched(s, step)
    case ByHandler(c, PollFindParent) => Touched(s, step)
    case ByHandler(c, PollPush(_)) => Touched(s, step)
    case ByReaper(a, Adopt) =>
      if s.procs[PcOf(s, a).todo.candidate].ppid == PcOf(s, a).p then {} else {PcOf(s, a).todo.candidate}
    case ByLooker(t, Use) => if s.looks[t] == s.threads[t].res.value then {} else {s.looks[t]}
    case _ => {}
  }

  lemma RegisteredAlive(s: State, p: Pid)
    requires Inv(s) && p in s.procs && !s.procs[p].reap.Reaped?
    ensures s.procs[p].frees == 0
  {
    assert Holds(References, s) && Holds(Records, s);
    assert RefsOk(s, p) && RecordOk(s.procs[p]);
    HeldCounts(s, p, BaseRef);
  }

  lemma AttachedNotFreed(s: State, t: Tid)
    requires Inv(s) && OwnThread(s, t)
    ensures s.procs[s.threads[t].res.value].frees == 0
  {
    InvAttached(s, t);
    HeldCounts(s, s.threads[t].res.value, ThreadRef(t));
  }

  lemma HandledNotFreed(s: State, a: Agent)
    requires Inv(s) && PcOf(s, a).On?
    ensures PcOf(s, a).p in s.procs && s.procs[PcOf(s, a).p].frees == 0
  {
    var p := PcOf(s, a).p;
    assert PcOk(s, a) by { assert Holds(Positions, s); }
    InvFocus(s, a, p);
    if a.Cleaner? {
      HeldCounts(s, p, PinRef(a.cpu));
    } else {
      RegisteredAlive(s, p);
    }
  }

  lemma HandlerTouches(s: State, c: Cpu, step: HandlerStep, p: Pid)
    requires Inv(s) && HandlerEnabled(s, c, step)
    requires p in Touched(s, ByHandler(c, step)) && p !in Borrowed(s, ByHandler(c, step))
    ensures p in s.procs && s.procs[p].frees == 0
  {
    if step.Pin? {
      AttachedNotFreed(s, PcOf(s, Cleaner(c)).t);
    } else {
      HandledNotFreed(s, Cleaner(c));
    }
  }

  lemma ReapTouches(s: State, a: Agent, step: ReapStep, p: Pid)
    requires Inv(s) && ReapEnabled(s, a, step)
    requires p in Touched(s, ByReaper(a, step)) && p !in Borrowed(s, ByReaper(a, step))
    ensures p in s.procs && s.procs[p].frees == 0
  {
    if step.Adopt? {
      assert PcOk(s, a) by { assert Holds(Positions, s); }
      RegisteredAlive(s, p);
    } else {
      HandledNotFreed(s, a);
    }
  }

  lemma WaitTouches(s: State, t: Tid, step: WaitStep, p: Pid)
    requires Inv(s) && WaitEnabled(s, t, step) && p in Touched(s, ByWaiter(t, step))
    ensures p in s.procs && s.procs[p].frees == 0
  {
    AttachedNotFreed(s, t);
    var pp := s.threads[t].res.value;
    if step.Receive? {
      assert MailOk(s, WaitPort(pp)) by { assert Holds(Letters, s); }
      MailedChildNotified(s, t, Mail(s, WaitPort(pp))[0], WaitPort(pp));
      ChildNotFreed(s, Mail(s, WaitPort(pp))[0].child);
    } else if !step.TakePending? {
      assert PcOk(s, Waiter(t)) by { assert Holds(Positions, s); }
      ChildNotFreed(s, PcOf(s, Waiter(t)).note.child);
    }
  }

  lemma ChildNotFreed(s: State, c: Pid)
    requires Inv(s) && c in s.procs && s.procs[c].exitState == Notified
    ensures s.procs[c].frees == 0
  {
    assert RecordOk(s.procs[c]) by { assert Holds(Records, s); }
    RegisteredAlive(s, c);
  }

  // No step of any interleaving uses a process object after it was freed, but for
  // the borrowed ones.  Notifications in the hands of wait4 carry bare pointers, too.
  lemma NoStepTouchesFreedProcess(run: seq<State>, steps: seq<Step>, i: nat, p: Pid)
    requires IsRun(run, steps) && i < |steps|
    requires p in Touched(run[i], steps[i]) && p !in Borrowed(run[i], steps[i])
    ensures p in run[i].procs && run[i].procs[p].frees == 0
  {
    var s := run[i];
    RunKeeps(run, steps, i);
    match steps[i] {
      case ByThread(step) =>
        AttachedNotFreed(s, if step.Fork? || step.CloneThread? then step.parent else step.tid);
      case ByHandler(c, step) => HandlerTouches(s, c, step, p);
      case ByReaper(a, step) => ReapTouches(s, a, step, p);
      case ByWaiter(t, step) => WaitTouches(s, t, step, p);
      case ByLooker(t, _) => AttachedNotFreed(s, t);
    }
  }

  // An object is alive exactly until its reap is over and no listener works on it
  // any more; a reaped process has no threads.
  lemma AliveIff(s: State, p: Pid)
    requires Inv(s) && p in s.procs
    ensures s.procs[p].threads == {} ==>
              (s.procs[p].frees == 0 <==> !s.procs[p].reap.Reaped? || exists c :: Handles(PcOf(s, Cleaner(c)), p))
    ensures s.procs[p].reap.Reaped? ==> s.procs[p].threads == {}
    ensures !s.procs[p].reap.Reaped? ==> s.procs[p].frees == 0
  {
    assert RefsOk(s, p) && RecordOk(s.procs[p]) by { assert Holds(References, s) && Holds(Records, s); }
    RefsAre(s, p);
    if s.procs[p].frees == 0 && s.procs[p].threads == {} && s.procs[p].reap.Reaped? {
      var r :| r in Refs(s, p);
      assert HoldsRef(s, p, r);
      assert Handles(PcOf(s, Cleaner(r.cpu)), p);
    }
    if !s.procs[p].reap.Reaped? {
      HeldCounts(s, p, BaseRef);
    } else if c :| Handles(PcOf(s, Cleaner(c)), p) {
      HeldCounts(s, p, PinRef(c));
    }
  }

  // So a borrowed object is alive exactly until then.
  lemma BorrowedAliveIff(run: seq<State>, steps: seq<Step>, i: nat, p: Pid)
    requires IsRun(run, steps) && i < |steps| && p in Borrowed(run[i], steps[i])
    ensures p in run[i].procs
    ensures run[i].procs[p].frees == 0 <==>
            !run[i].procs[p].reap.Reaped? || exists c :: Handles(PcOf(run[i], Cleaner(c)), p)
  {
    RunKeeps(run, steps, i);
    BorrowedExists(run[i], steps[i], p);
    AliveIff(run[i], p);
  }

  lemma BorrowedExists(s: State, step: Step, p: Pid)
    requires Inv(s) && Enabled(s, step) && p in Borrowed(s, step)
    ensures p in s.procs
  {
    match step {
      case ByHandler(c, h) =>
        assert PcOk(s, Cleaner(c)) by { assert Holds(Positions, s); }
        assert MailOk(s, ParkedJobs(c)) by { assert Holds(Letters, s); }
        assert AllParents(s) by { assert Holds(Parents, s); }
        NoteParties(s, c, h);
      case _ =>
    }
  }

  lemma NoteParties(s: State, c: Cpu, step: HandlerStep)
    requires HandlerEnabled(s, c, step) && PcOk(s, Cleaner(c)) && MailOk(s, ParkedJobs(c)) && AllParents(s)
    ensures Borrowed(s, ByHandler(c, step)) <= s.procs.Keys
  {
    match step {
      case PushPending(_) => assert ParentOk(s, PcOf(s, Cleaner(c)).p);
      case PollPush(_) => assert ParentOk(s, PolledNote(s, c, PollOf(s, c).i).child);
      case _ =>
    }
  }

  // ---- the poll of parked jobs

  // The job a listener is at stays on its list: nobody else takes jobs off it.
  ghost predicate AtJob(s: State, c: Cpu) {
    var poll := PollOf(s, c);
    !poll.NoPoll? ==> poll.i < |Mail(s, ParkedJobs(c))|
  }

  lemma HandlerAtJob(s: State, d: Cpu, step: HandlerStep, c: Cpu)
    requires HandlerEnabled(s, d, step) && AtJob(s, c)
    ensures AtJob(ApplyHandler(s, d, step), c)
  {
    if step.PollFind? || step.PollPost? || step.PollFindParent? || step.PollPush? {
      PollAtJob(s, d, step, c);
    } else if step.Notify? {
      NotifyAtJob(s, d, step.outcome, step.jobRoom, c);
    }
  }

  lemma PollAtJob(s: State, d: Cpu, step: HandlerStep, c: Cpu)
    requires HandlerEnabled(s, d, step) && AtJob(s, c)
    requires step.PollFind? || step.PollPost? || step.PollFindParent? || step.PollPush?
    ensures AtJob(ApplyHandler(s, d, step), c)
  {
    match step {
      case PollFind(i) => assert AtJob(DoPollFind(s, d, i), c);
      case PollPost(r) => PollPostAtJob(s, d, r, c);
      case PollFindParent => assert AtJob(DoPollFindParent(s, d), c);
      case PollPush(entryRoom) => PollPushAtJob(s, d, entryRoom, c);
    }
  }

  lemma PollPostAtJob(s: State, d: Cpu, r: Try, c: Cpu)
    requires HandlerEnabled(s, d, PollPost(r)) && AtJob(s, c)
    ensures AtJob(DoPollPost(s, d, r), c)
  {
  }

  lemma PollPushAtJob(s: State, d: Cpu, entryRoom: bool, c: Cpu)
    requires HandlerEnabled(s, d, PollPush(entryRoom)) && AtJob(s, c)
    ensures AtJob(DoPollPush(s, d, entryRoom), c)
  {
  }

  lemma NotifyAtJob(s: State, d: Cpu, r: Try, jobRoom: bool, c: Cpu)
    requires HandlerEnabled(s, d, Notify(r, jobRoom)) && AtJob(s, c)
    ensures AtJob(DoNotify(s, d, r, jobRoom), c)
  {
  }

  lemma ReapAtJob(s: State, a: Agent, step: ReapStep, c: Cpu)
    requires ReapEnabled(s, a, step) && AtJob(s, c)
    ensures AtJob(ApplyReap(s, a, step), c)
  {
  }

  lemma WaitAtJob(s: State, t: Tid, step: WaitStep, c: Cpu)
    requires WaitEnabled(s, t, step) && AtJob(s, c)
    ensures AtJob(ApplyWait(s, t, step), c)
  {
  }

  lemma StepAtJob(s: State, step: Step, c: Cpu)
    requires Enabled(s, step) && AtJob(s, c)
    ensures AtJob(Apply(s, step), c)
  {
    match step {
      case ByThread(t) =>
      case ByHandler(d, h) => HandlerAtJob(s, d, h, c);
      case ByReaper(a, r) => ReapAtJob(s, a, r, c);
      case ByWaiter(t, w) => WaitAtJob(s, t, w, c);
      case ByLooker(_, _) =>
    }
  }

  lemma {:induction false} PollStaysAtItsJob(run: seq<State>, steps: seq<Step>, i: nat, c: Cpu)
    requires IsRun(run, steps) && i <= |steps|
    ensures AtJob(run[i], c)
  {
    if i > 0 {
      PollStaysAtItsJob(run, steps, i - 1, c);
      StepAtJob(run[i-1], steps[i-1], c);
    }
  }

  // ---- what threads have looked up

  lemma OnlyLookersLook(s: State, step: Step)
    requires Enabled(s, step) && !step.ByLooker?
    ensures Apply(s, step).looks == s.looks
  {
    match step {
      case ByThread(t) => ThreadsKeepLooks(s, t);
      case ByHandler(c, h) => HandlersKeepLooks(s, c, h);
      case ByReaper(a, r) => ReapersKeepLooks(s, a, r);
      case ByWaiter(t, w) => WaitersKeepLooks(s, t, w);
    }
  }

  lemma ThreadsKeepLooks(s: State, step: ThreadStep)
    requires ThreadEnabled(s, step)
    ensures ApplyThread(s, step).looks == s.looks
  {
  }

  lemma HandlersKeepLooks(s: State, c: Cpu, step: HandlerStep)
    requires HandlerEnabled(s, c, step)
    ensures ApplyHandler(s, c, step).looks == s.looks
  {
    if step.PollFind? || step.PollPost? || step.PollFindParent? || step.PollPush? {
      PollKeepsLooks(s, c, step);
    } else if step.Notify? || step.FindParent? || step.PushPending? || step.Commit? {
      NotifyKeepsLooks(s, c, step);
    } else {
      ReapKeepsLooks(s, c, step);
    }
  }

  lemma PollKeepsLooks(s: State, c: Cpu, step: HandlerStep)
    requires HandlerEnabled(s, c, step)
    requires step.PollFind? || step.PollPost? || step.PollFindParent? || step.PollPush?
    ensures ApplyHandler(s, c, step).looks == s.looks
  {
  }

  lemma NotifyKeepsLooks(s: State, c: Cpu, step: HandlerStep)
    requires HandlerEnabled(s, c, step) && (step.Notify? || step.FindParent? || step.PushPending? || step.Commit?)
    ensures ApplyHandler(s, c, step).looks == s.looks
  {
    match step {
      case Notify(r, jobRoom) => OutcomeKeepsLooks(s, c, r, jobRoom);
      case FindParent => assert DoFindParent(s, c).looks == s.looks;
      case PushPending(entryRoom) => assert DoPushPending(s, c, entryRoom).looks == s.looks;
      case Commit => assert DoCommit(s, c).looks == s.looks;
    }
  }

  lemma OutcomeKeepsLooks(s: State, c: Cpu, r: Try, jobRoom: bool)
    requires HandlerEnabled(s, c, Notify(r, jobRoom))
    ensures DoNotify(s, c, r, jobRoom).looks == s.looks
  {
  }

  lemma ReapKeepsLooks(s: State, c: Cpu, step: HandlerStep)
    requires HandlerEnabled(s, c, step)
    requires !step.PollFind? && !step.PollPost? && !step.PollFindParent? && !step.PollPush?
    requires !step.Notify? && !step.FindParent? && !step.PushPending? && !step.Commit?
    ensures ApplyHandler(s, c, step).looks == s.looks
  {
  }

  lemma ReapersKeepLooks(s: State, a: Agent, step: ReapStep)
    requires ReapEnabled(s, a, step)
    ensures ApplyReap(s, a, step).looks == s.looks
  {
  }

  lemma WaitersKeepLooks(s: State, t: Tid, step: WaitStep)
    requires WaitEnabled(s, t, step)
    ensures ApplyWait(s, t, step).looks == s.looks
  {
  }

  // A process that was looked up stays in the history, so that its use is a step
  // that an attached thread can always take.
  lemma {:induction false} LookedUpIsThere(run: seq<State>, steps: seq<Step>, i: nat, t: Tid)
    requires IsRun(run, steps) && i <= |steps| && t in run[i].looks
    ensures run[i].looks[t] in run[i].procs
    ensures OwnThread(run[i], t) ==> Enabled(run[i], ByLooker(t, Use))
  {
    if i > 0 {
      var s, step := run[i - 1], steps[i - 1];
      assert run[i - 1 + 1] == Apply(s, step);
      RunKeeps(run, steps, i - 1);
      StepForward(s, step);
      if !step.ByLooker? {
        OnlyLookersLook(s, step);
      }
      if t in s.looks {
        LookedUpIsThere(run, steps, i - 1, t);
      }
    }
  }
}

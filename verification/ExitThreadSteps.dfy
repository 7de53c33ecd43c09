/**
 Steps that create, mark, queue or detach a thread keep the invariant.
 */
module ExitThreadSteps {
  import opened Wrappers
  import opened ExitProtocol
  import opened ExitInvariant
  import opened ExitFrames

  // Threads other than t are untouched and stay attached.
  ghost predicate ThreadShape(s: State, s': State, p: Pid, t: Tid) {
    && (forall u :: u in s'.threads && u != t ==> u in s.threads && s'.threads[u] == s.threads[u])
    && (forall u :: u != t ==> (u in s'.reapQueue <==> u in s.reapQueue))
    && (p in s.procs && p in s'.procs ==> forall u :: u in s.procs[p].threads && u != t ==> u in s'.procs[p].threads)
  }

  lemma OthersStay(s: State, s': State, a: Agent, p: Pid, t: Tid)
    requires AllThreads(s) && Shape(s, s', a, p) && ThreadShape(s, s', p, t)
    requires t in s'.threads ==> ThreadOk(s', t)
    ensures AllThreads(s')
  {
    forall u | u in s'.threads ensures ThreadOk(s', u) {
      if u != t {
        assert ThreadOk(s, u);
        OtherThread(s, s', a, p, u);
      }
    }
  }

  // The facts a thread step has to establish itself.
  ghost predicate ThreadFocus(s: State, a: Agent, p: Pid, t: Tid) {
    && Focus(s, a, p) && RefsOk(s, p) && MembersOk(s, p)
    && QueueOk(s) && (t in s.threads ==> ThreadOk(s, t))
  }

  lemma ThreadRuleProcs(s: State, s': State, a: Agent, p: Pid)
    requires Inv(s) && Shape(s, s', a, p) && PcShape(s, s', a, p)
    requires Focus(s', a, p) && RefsOk(s', p) && MembersOk(s', p)
    ensures AllRecords(s') && AllMembers(s') && AllReapers(s') && AllRefs(s')
  {
    UnfoldInv(s);
    OtherMembers(s, s', a, p);
    OtherReapers(s, s', a, p);
    OtherRefs(s, s', a, p);
  }

  lemma ThreadRulePcs(s: State, s': State, a: Agent, p: Pid)
    requires Inv(s) && Shape(s, s', a, p)
    requires Focus(s', a, p) && s'.mail == s.mail
    requires p in s.procs ==> s'.procs[p].token == s.procs[p].token
    ensures AllParents(s') && AllPcs(s') && AllMail(s')
  {
    UnfoldInv(s);
    OtherParents(s, s', a, p);
    OtherPcs(s, s', a, p);
    FrameMail(s, s', a, p);
  }

  lemma ThreadRule(s: State, s': State, a: Agent, p: Pid, t: Tid)
    requires Inv(s) && Shape(s, s', a, p) && PcShape(s, s', a, p) && ThreadShape(s, s', p, t)
    requires ThreadFocus(s', a, p, t) && s'.mail == s.mail
    requires p in s.procs ==> s'.procs[p].token == s.procs[p].token
    ensures Inv(s')
  {
    ThreadRuleProcs(s, s', a, p);
    ThreadRulePcs(s, s', a, p);
    assert AllThreads(s') by {
      assert Holds(Threads, s);
      OthersStay(s, s', a, p, t);
    }
    FoldInv(s');
  }

  // What the invariant says about one attached thread and its process.
  ghost predicate Attached(s: State, p: Pid, t: Tid) {
    && p in s.procs && t in s.threads && s.threads[t].res == Some(p) && t in s.procs[p].threads
    && RecordOk(s.procs[p]) && ParentOk(s, p) && ReaperOk(s, p) && RefsOk(s, p) && MembersOk(s, p)
    && ThreadOk(s, t) && QueueOk(s)
  }

  lemma InvAttached(s: State, t: Tid)
    requires Inv(s) && OwnThread(s, t)
    ensures Attached(s, s.threads[t].res.value, t)
  {
    UnfoldInv(s);
    assert ThreadOk(s, t);
  }

  // A step of a running or exiting thread on its own process.
  function OwnStep(s: State, p: Pid, t: Tid, y: Proc, ph: Phase): State
    requires t in s.threads
  {
    SetPhase(SetProc(s, p, y), t, ph)
  }

  // Records a thread may leave behind while it is still attached.
  ghost predicate OwnChange(x: Proc, y: Proc) {
    && y == x.(exitCode := y.exitCode, exitState := y.exitState, exitLastThread := y.exitLastThread)
    && (y.exitState == x.exitState || y.exitState == Zombie)
    && 0 <= y.exitCode < 256
  }

  lemma OwnFocus(s: State, p: Pid, t: Tid, y: Proc, ph: Phase)
    requires Attached(s, p, t) && OwnChange(s.procs[p], y)
    requires !s.threads[t].phase.Queued? && !s.threads[t].phase.Reaping? && !ph.Queued? && !ph.Reaping?
    requires Marked(ph) ==> y.exitState != Running
    requires PcOf(s, Waiter(t)).Idle?
    ensures Shape(s, OwnStep(s, p, t, y, ph), Waiter(t), p)
    ensures ThreadShape(s, OwnStep(s, p, t, y, ph), p, t)
    ensures ThreadFocus(OwnStep(s, p, t, y, ph), Waiter(t), p, t)
  {
    var s' := OwnStep(s, p, t, y, ph);
    assert PcOf(s', Waiter(t)).Idle?;
    SameRefs(s, s', Waiter(t), p);
    assert forall b :: PcOf(s', b) == PcOf(s, b);
    assert y.threads == s.procs[p].threads;
    assert y.lastReaper.None?;
  }

  lemma OwnRule(s: State, t: Tid, y: Proc, ph: Phase)
    requires Inv(s) && OwnThread(s, t) && OwnChange(s.procs[s.threads[t].res.value], y)
    requires !s.threads[t].phase.Queued? && !s.threads[t].phase.Reaping? && !ph.Queued? && !ph.Reaping?
    requires Marked(ph) ==> y.exitState != Running
    requires PcOf(s, Waiter(t)).Idle?
    ensures Inv(OwnStep(s, s.threads[t].res.value, t, y, ph))
  {
    var p := s.threads[t].res.value;
    InvAttached(s, t);
    OwnFocus(s, p, t, y, ph);
    ThreadRule(s, OwnStep(s, p, t, y, ph), Waiter(t), p, t);
  }

  // An exiting thread is not inside wait4.
  lemma ExitingNotWaiting(s: State, t: Tid)
    requires Inv(s) && t in s.threads && s.threads[t].phase != Live
    ensures PcOf(s, Waiter(t)).Idle?
  {
    assert Holds(Positions, s);
    assert PcOk(s, Waiter(t));
  }

  lemma MarkCodeKeeps(s: State, t: Tid, arg: int)
    requires Inv(s) && ThreadEnabled(s, MarkCode(t, arg))
    ensures Inv(DoMarkCode(s, t, arg))
  {
    var x := s.procs[s.threads[t].res.value];
    OwnRule(s, t, x.(exitCode := arg % 256), CodeSet);
  }

  lemma MarkStateKeeps(s: State, t: Tid)
    requires Inv(s) && ThreadEnabled(s, MarkState(t))
    ensures Inv(DoMarkState(s, t))
  {
    ExitingNotWaiting(s, t);
    InvAttached(s, t);
    var x := s.procs[s.threads[t].res.value];
    OwnRule(s, t, x.(exitState := Zombie), StateSet);
  }

  lemma MarkHintKeeps(s: State, t: Tid)
    requires Inv(s) && ThreadEnabled(s, MarkHint(t))
    ensures Inv(DoMarkHint(s, t))
  {
    ExitingNotWaiting(s, t);
    InvAttached(s, t);
    var x := s.procs[s.threads[t].res.value];
    OwnRule(s, t, x.(exitLastThread := x.threadNumber == 1), HintSet);
  }

  lemma SendReapKeeps(s: State, t: Tid)
    requires Inv(s) && ThreadEnabled(s, SendReap(t))
    ensures Inv(DoSendReap(s, t))
  {
    var p, s' := s.threads[t].res.value, DoSendReap(s, t);
    ExitingNotWaiting(s, t);
    InvAttached(s, t);
    SendReapFocus(s, p, t);
    ThreadRule(s, s', Waiter(t), p, t);
  }

  lemma SendReapFocus(s: State, p: Pid, t: Tid)
    requires Attached(s, p, t) && s.threads[t].phase == HintSet && PcOf(s, Waiter(t)).Idle?
    ensures Shape(s, DoSendReap(s, t), Waiter(t), p)
    ensures ThreadShape(s, DoSendReap(s, t), p, t)
    ensures ThreadFocus(DoSendReap(s, t), Waiter(t), p, t)
  {
    var s' := DoSendReap(s, t);
    SameRefs(s, s', Waiter(t), p);
    assert t !in s.reapQueue;
    assert s'.reapQueue[|s.reapQueue|] == t;
  }

  lemma TakeReapKeeps(s: State, c: Cpu)
    requires Inv(s) && HandlerEnabled(s, c, TakeReap)
    ensures Inv(DoTakeReap(s, c))
  {
    var t, s' := s.reapQueue[0], DoTakeReap(s, c);
    assert ThreadOk(s, t) by { assert Holds(Threads, s); }
    assert t in s.reapQueue;
    InvAttached(s, t);
    ExitingNotWaiting(s, t);
    var p := s.threads[t].res.value;
    TakeReapFocus(s, c, p, t);
    ThreadRule(s, s', Cleaner(c), p, t);
  }

  lemma TakeReapFocus(s: State, c: Cpu, p: Pid, t: Tid)
    requires Attached(s, p, t) && HandlerEnabled(s, c, TakeReap) && t == s.reapQueue[0] && PcOf(s, Waiter(t)).Idle?
    requires s.threads[t].phase == Queued
    ensures Shape(s, DoTakeReap(s, c), Cleaner(c), p) && PcShape(s, DoTakeReap(s, c), Cleaner(c), p)
    ensures ThreadShape(s, DoTakeReap(s, c), p, t)
    ensures ThreadFocus(DoTakeReap(s, c), Cleaner(c), p, t)
  {
    var s' := DoTakeReap(s, c);
    SameRefs(s, s', Cleaner(c), p);
    assert s.reapQueue == [t] + s'.reapQueue;
    assert forall i :: 0 <= i < |s'.reapQueue| ==> s'.reapQueue[i] == s.reapQueue[i+1];
    assert t !in s'.reapQueue;
  }

  lemma DetachLockKeeps(s: State, c: Cpu)
    requires Inv(s) && HandlerEnabled(s, c, DetachLock)
    ensures Inv(DoDetachLock(s, c))
  {
    var On(p, ToDetach(t)) := PcOf(s, Cleaner(c));
    assert PcOk(s, Cleaner(c)) by { assert Holds(Positions, s); }
    InvAttached(s, t);
    ExitingNotWaiting(s, t);
    DetachRefs(s, c, p, t);
    DetachLockShape(s, c, p, t);
    DetachLockFocus(s, c, p, t);
    ThreadRule(s, DoDetachLock(s, c), Cleaner(c), p, t);
  }

  // The reference of the thread becomes one the handler still has to drop.
  lemma DetachRefs(s: State, c: Cpu, p: Pid, t: Tid)
    requires p in s.procs && RefsOk(s, p) && t in s.procs[p].threads && HandlerEnabled(s, c, DetachLock)
    requires PcOf(s, Cleaner(c)) == On(p, ToDetach(t))
    ensures RefsOk(DoDetachLock(s, c), p)
  {
    var s' := DoDetachLock(s, c);
    forall rs | IsRefs(rs, s', p) ensures s'.procs[p].refcount == |rs| {
      var before := rs - {DropRef(c)} + {ThreadRef(t)};
      assert DropRef(c) in rs && ThreadRef(t) !in rs;
      forall r ensures r in before <==> HoldsRef(s, p, r) {
        match r {
          case PinRef(d) => assert d != c ==> PcOf(s', Cleaner(d)) == PcOf(s, Cleaner(d));
          case DropRef(d) => assert d != c ==> PcOf(s', Cleaner(d)) == PcOf(s, Cleaner(d));
          case _ =>
        }
      }
      assert IsRefs(before, s, p);
      assert |before| == |rs|;
    }
  }

  lemma DetachLockShape(s: State, c: Cpu, p: Pid, t: Tid)
    requires Attached(s, p, t) && HandlerEnabled(s, c, DetachLock) && PcOf(s, Cleaner(c)) == On(p, ToDetach(t))
    requires PcOk(s, Cleaner(c)) && PcOf(s, Waiter(t)).Idle?
    ensures Shape(s, DoDetachLock(s, c), Cleaner(c), p) && PcShape(s, DoDetachLock(s, c), Cleaner(c), p)
    ensures ThreadShape(s, DoDetachLock(s, c), p, t)
  {
  }

  lemma DetachLockFocus(s: State, c: Cpu, p: Pid, t: Tid)
    requires Attached(s, p, t) && HandlerEnabled(s, c, DetachLock) && PcOf(s, Cleaner(c)) == On(p, ToDetach(t))
    requires PcOk(s, Cleaner(c)) && RefsOk(DoDetachLock(s, c), p)
    ensures ThreadFocus(DoDetachLock(s, c), Cleaner(c), p, t)
  {
    var s', x := DoDetachLock(s, c), s.procs[p];
    assert |x.threads| == |x.threads - {t}| + 1;
  }

  lemma CloneKeeps(s: State, u: Tid, t: Tid)
    requires Inv(s) && ThreadEnabled(s, CloneThread(u, t))
    ensures Inv(DoClone(s, u, t))
  {
    var p, s' := s.threads[u].res.value, DoClone(s, u, t);
    InvAttached(s, u);
    FreshIdle(s, t);
    FreshUnqueued(s, t);
    FreshUnattached(s, t);
    CloneFocus(s, u, p, t);
    ThreadRule(s, s', Waiter(t), p, t);
  }

  lemma FreshIdle(s: State, t: Tid)
    requires Inv(s) && t !in s.threads
    ensures PcOf(s, Waiter(t)).Idle?
  {
    assert Holds(Positions, s);
    assert PcOk(s, Waiter(t));
  }

  lemma FreshUnqueued(s: State, t: Tid)
    requires Inv(s) && t !in s.threads
    ensures t !in s.reapQueue
  {
    assert Holds(Queue, s);
  }

  lemma FreshUnattached(s: State, t: Tid)
    requires Inv(s) && t !in s.threads
    ensures forall p :: p in s.procs ==> t !in s.procs[p].threads
  {
    assert Holds(Members, s);
    forall p | p in s.procs ensures t !in s.procs[p].threads { assert MembersOk(s, p); }
  }

  lemma CloneShape(s: State, u: Tid, p: Pid, t: Tid)
    requires p in s.procs && OwnThread(s, u) && s.threads[u].res == Some(p) && s.procs[p].threads != {}
    requires t !in s.threads
    ensures Shape(s, DoClone(s, u, t), Waiter(t), p)
    ensures ThreadShape(s, DoClone(s, u, t), p, t)
  {
  }

  lemma CloneRefs(s: State, u: Tid, p: Pid, t: Tid)
    requires p in s.procs && OwnThread(s, u) && s.threads[u].res == Some(p) && RefsOk(s, p) && t !in s.procs[p].threads
    ensures RefsOk(DoClone(s, u, t), p)
  {
    var s' := DoClone(s, u, t);
    assert forall b :: PcOf(s', b) == PcOf(s, b);
    RefsGain(s, s', p, ThreadRef(t));
  }

  lemma CloneRecord(s: State, u: Tid, p: Pid, t: Tid)
    requires p in s.procs && OwnThread(s, u) && s.threads[u].res == Some(p) && s.procs[p].threads != {}
    requires RecordOk(s.procs[p]) && t !in s.procs[p].threads && s.procs[p].refcount >= 1
    ensures RecordOk(DoClone(s, u, t).procs[p])
  {
    assert |s.procs[p].threads + {t}| == |s.procs[p].threads| + 1;
  }

  lemma CloneFocus(s: State, u: Tid, p: Pid, t: Tid)
    requires Attached(s, p, u) && t !in s.threads && t !in s.reapQueue && PcOf(s, Waiter(t)).Idle?
             && t !in s.procs[p].threads
    ensures Shape(s, DoClone(s, u, t), Waiter(t), p)
    ensures ThreadShape(s, DoClone(s, u, t), p, t)
    ensures ThreadFocus(DoClone(s, u, t), Waiter(t), p, t)
  {
    HeldCounts(s, p, ThreadRef(u));
    CloneShape(s, u, p, t);
    CloneRefs(s, u, p, t);
    CloneRecord(s, u, p, t);
    var s' := DoClone(s, u, t);
    assert PcOf(s', Waiter(t)).Idle?;
    assert s.procs[p].lastReaper.None?;
  }

  lemma NewKeeps(s: State, p: Pid, t: Tid, ppid: Pid)
    requires Inv(s) && p > 0 && p !in s.procs && t !in s.threads
    requires ppid == 0 || (ppid in s.procs && s.procs[ppid].registered)
    ensures Inv(DoNew(s, p, t, ppid))
  {
    var s' := DoNew(s, p, t, ppid);
    FreshIdle(s, t);
    assert QueueOk(s) by { assert Holds(Queue, s); }
    FreshUnqueued(s, t);
    NewRefs(s, p, t, ppid);
    NewFocus(s, p, t, ppid);
    ThreadRule(s, s', Waiter(t), p, t);
  }

  lemma UnknownUnhandled(s: State, p: Pid)
    requires Inv(s) && p !in s.procs
    ensures forall a :: !Handles(PcOf(s, a), p)
  {
    assert Holds(Positions, s);
    forall a ensures !Handles(PcOf(s, a), p) { assert PcOk(s, a); }
  }

  lemma NewRefs(s: State, p: Pid, t: Tid, ppid: Pid)
    requires Inv(s) && p !in s.procs
    ensures RefsOk(DoNew(s, p, t, ppid), p)
  {
    var s' := DoNew(s, p, t, ppid);
    UnknownUnhandled(s, p);
    assert forall b :: PcOf(s', b) == PcOf(s, b);
    forall rs | IsRefs(rs, s', p) ensures s'.procs[p].refcount == |rs| {
      assert BaseRef in rs && ThreadRef(t) in rs;
      assert rs == {BaseRef, ThreadRef(t)};
    }
  }

  lemma NewFocus(s: State, p: Pid, t: Tid, ppid: Pid)
    requires p > 0 && p !in s.procs && t !in s.threads && t !in s.reapQueue && QueueOk(s)
    requires ppid == 0 || (ppid in s.procs && s.procs[ppid].registered)
    requires PcOf(s, Waiter(t)).Idle? && RefsOk(DoNew(s, p, t, ppid), p)
    ensures Shape(s, DoNew(s, p, t, ppid), Waiter(t), p)
    ensures ThreadShape(s, DoNew(s, p, t, ppid), p, t)
    ensures ThreadFocus(DoNew(s, p, t, ppid), Waiter(t), p, t)
  {
    assert PcOf(DoNew(s, p, t, ppid), Waiter(t)).Idle?;
  }
}

/**
 linux_proc_fini keeps the invariant: the drain of the pending list, the pid scan
 that hands the children to init, and the removal from the registry, each with
 other agents at work between any two of its steps.
 */
module ExitFiniStep {
  import opened ExitProtocol
  import opened ExitInvariant
  import opened ExitFrames
  import opened ExitReapSteps
  import opened ExitMailSteps

  // The agent moves on within linux_proc_fini.
  lemma MoveKeeps(s: State, a: Agent, p: Pid, todo: Todo)
    requires Inv(s) && PcOn(s, a) && Handles(PcOf(s, a), p) && p in s.procs
    requires Finishing(PcOf(s, a).todo)
    requires todo.ToScan? || (todo.ToAdopt? && AdoptOk(s, p, todo.candidate))
    ensures Inv(Goto(s, a, On(p, todo)))
  {
    var pc := On(p, todo);
    InvFocus(s, a, p);
    MoveOnly(s, a, p, pc);
    MoveFocus(s, a, p, pc);
    LocalSameRefs(s, a, p, s.procs[p], pc);
    LocalRule(s, a, p, s.procs[p], pc);
  }

  lemma MoveFocus(s: State, a: Agent, p: Pid, pc: Pc)
    requires Focus(s, a, p) && Handles(PcOf(s, a), p) && Handles(pc, p)
    requires Finishing(PcOf(s, a).todo)
    requires pc.todo.ToScan? || (pc.todo.ToAdopt? && AdoptOk(s, p, pc.todo.candidate))
    ensures LocalChange(s, a, p, s.procs[p], pc)
    ensures Focus(Local(s, a, p, s.procs[p], pc), a, p)
  {
    MoveOnly(s, a, p, pc);
    LocalParents(s, a, p, s.procs[p], pc);
  }

  lemma DrainOneKeeps(s: State, a: Agent)
    requires Inv(s) && ReapEnabled(s, a, DrainOne)
    ensures Inv(DoDrainOne(s, a))
  {
    var h := Pending(PcOf(s, a).p);
    var n, s' := Mail(s, h)[0], DoDrainOne(s, a);
    assert AllMail(s') && NoteOk(s, n, h) by {
      assert Holds(Letters, s);
      assert MailOk(s, h);
      MailTake(s, h, 0, Consumed);
    }
    InvFocus(s, a, n.child);
    TokenRule(s, s', a, n.child, Consumed, PcOf(s, a));
  }

  // A registered child of a process that is being reaped is not claimed: its
  // parent has no thread to wait for it, and no listener takes it for an orphan.
  lemma ScannedChildUnclaimed(s: State, a: Agent, k: Pid)
    requires Inv(s) && PcOf(s, a).On? && PcOf(s, a).todo.ToScan? && Found(s, k)
    ensures AdoptOk(s, PcOf(s, a).p, k)
  {
    var p := PcOf(s, a).p;
    assert PcOk(s, a) by { assert Holds(Positions, s); }
    InvFocus(s, a, p);
    InvFocus(s, a, k);
    if s.procs[k].ppid == p && !s.procs[k].reap.Unclaimed? {
      ClaimantStands(s, k);
    }
  }

  // A wait4 that has claimed a registered process is still inside linux_proc_fini,
  // so the parent has a thread.
  lemma ClaimantStands(s: State, k: Pid)
    requires Inv(s) && k in s.procs && s.procs[k].reap.MustFini?
    ensures s.procs[k].reap.agent.Waiter? ==>
              s.procs[k].creator in s.procs && s.procs[s.procs[k].creator].reap.Unclaimed?
  {
    var b := s.procs[k].reap.agent;
    if b.Waiter? {
      assert PcOk(s, b) by { assert Holds(Positions, s); }
      InvFocus(s, b, k);
      assert AllThreads(s) && AllRecords(s) by { UnfoldInv(s); }
      AttachedRegistered(s, b.tid);
    }
  }

  lemma ScanKeeps(s: State, a: Agent)
    requires Inv(s) && (ReapEnabled(s, a, ScanMiss) || ReapEnabled(s, a, ScanFind))
    ensures Inv(DoScan(s, a))
  {
    var On(p, ToScan(k)) := PcOf(s, a);
    if Found(s, k) {
      ScannedChildUnclaimed(s, a, k);
      MoveKeeps(s, a, p, ToAdopt(k));
    } else {
      MoveKeeps(s, a, p, ToScan(k + 1));
    }
  }

  // The store of ppid, once the agent has moved on
  lemma AdoptKeeps(s: State, a: Agent)
    requires Inv(s) && ReapEnabled(s, a, Adopt)
    ensures Inv(DoAdopt(s, a))
  {
    var On(p, ToAdopt(k)) := PcOf(s, a);
    MoveKeeps(s, a, p, ToScan(k + 1));
    var s1 := Goto(s, a, On(p, ToScan(k + 1)));
    if s.procs[k].ppid == p {
      PpidKeeps(s1, a, p, k);
    }
  }

  lemma PpidKeeps(s: State, a: Agent, p: Pid, k: Pid)
    requires Inv(s) && Handles(PcOf(s, a), p) && PcOf(s, a).todo.ToScan? && p in s.procs && k in s.procs
             && s.procs[k].ppid == p
    ensures Inv(SetProc(s, k, s.procs[k].(ppid := 0)))
  {
    var s' := SetProc(s, k, s.procs[k].(ppid := 0));
    InvFocus(s, a, p);
    InvFocus(s, a, k);
    assert PcOf(s', a) == PcOf(s, a);
    SameRefs(s, s', a, k);
    PpidFocus(s, s', a, p, k);
    QuietRule(s, s', a, k);
  }

  lemma PpidFocus(s: State, s': State, a: Agent, p: Pid, k: Pid)
    requires Focus(s, a, p) && Focus(s, a, k) && Handles(PcOf(s, a), p) && PcOf(s, a).todo.ToScan?
             && s.procs[k].ppid == p
    requires s' == SetProc(s, k, s.procs[k].(ppid := 0))
    ensures Frame(s, s', a, k) && Focus(s', a, k)
  {
    assert forall b :: PcOf(s', b) == PcOf(s, b);
  }

  function Unregistered(x: Proc, a: Agent): Proc {
    x.(registered := false, finiRuns := x.finiRuns + 1, reap := MustPut(a))
  }

  lemma UnregisterKeeps(s: State, a: Agent)
    requires Inv(s) && ReapEnabled(s, a, Unregister)
    ensures Inv(DoUnregister(s, a))
  {
    var p := PcOf(s, a).p;
    var y, pc := Unregistered(s.procs[p], a), On(p, ToPutBase);
    InvFocus(s, a, p);
    UnregisterFocus(s, a, p);
    LocalSameRefs(s, a, p, y, pc);
    LocalRule(s, a, p, y, pc);
  }

  lemma UnregisterFocus(s: State, a: Agent, p: Pid)
    requires Focus(s, a, p) && Handles(PcOf(s, a), p) && PcOf(s, a).todo.ToScan?
    ensures LocalChange(s, a, p, Unregistered(s.procs[p], a), On(p, ToPutBase))
    ensures Focus(Local(s, a, p, Unregistered(s.procs[p], a), On(p, ToPutBase)), a, p)
  {
    LocalParents(s, a, p, Unregistered(s.procs[p], a), On(p, ToPutBase));
  }

  lemma DrainDoneKeeps(s: State, a: Agent)
    requires Inv(s) && ReapEnabled(s, a, DrainDone)
    ensures Inv(Goto(s, a, On(PcOf(s, a).p, ToScan(1))))
  {
    MoveKeeps(s, a, PcOf(s, a).p, ToScan(1));
  }
}

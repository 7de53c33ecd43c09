/**
 Steps of clean_handle_thread_reap keep the invariant.
 */
module ExitHandlerSteps {
  import opened Wrappers
  import opened ExitProtocol
  import opened ExitInvariant
  import opened ExitFrames

  lemma DetachPutKeeps(s: State, c: Cpu)
    requires Inv(s) && HandlerEnabled(s, c, DetachPut)
    ensures Inv(DoDetachPut(s, c))
  {
    var a, p := Cleaner(c), PcOf(s, Cleaner(c)).p;
    var y, pc := Put(s.procs[p]), On(p, ToBundle1);
    InvFocus(s, a, p);
    LocalDropRefs(s, c, p, y, pc);
    DetachPutFocus(s, c, p);
    LocalRule(s, a, p, y, pc);
  }

  lemma DetachPutFocus(s: State, c: Cpu, p: Pid)
    requires Focus(s, Cleaner(c), p) && PcOf(s, Cleaner(c)) == On(p, ToDrop) && s.procs[p].refcount >= 1
    ensures LocalChange(s, Cleaner(c), p, Put(s.procs[p]), On(p, ToBundle1))
    ensures Focus(Local(s, Cleaner(c), p, Put(s.procs[p]), On(p, ToBundle1)), Cleaner(c), p)
  {
    LocalParents(s, Cleaner(c), p, Put(s.procs[p]), On(p, ToBundle1));
  }

  // A handler that only moves on, keeping every reference it holds.
  lemma MoveFocus(s: State, c: Cpu, p: Pid, pc: Pc)
    requires Focus(s, Cleaner(c), p) && Handles(PcOf(s, Cleaner(c)), p)
    requires Handles(pc, p)
    requires s.procs[p].lastReaper == Some(c) && s.procs[p].exitState.Rank() < 2 ==> BeforeCommit(pc.todo)
    requires !Finishing(PcOf(s, Cleaner(c)).todo)
    requires PcOk(Goto(s, Cleaner(c), pc), Cleaner(c))
    ensures LocalChange(s, Cleaner(c), p, s.procs[p], pc)
    ensures Focus(Local(s, Cleaner(c), p, s.procs[p], pc), Cleaner(c), p)
  {
    MoveOnly(s, Cleaner(c), p, pc);
    LocalParents(s, Cleaner(c), p, s.procs[p], pc);
  }

  lemma MoveRule(s: State, c: Cpu, p: Pid, pc: Pc)
    requires Inv(s) && Handles(PcOf(s, Cleaner(c)), p) && PcOf(s, Cleaner(c)).todo != ToDrop
    requires p in s.procs && MoveOk(s, c, p, pc) && !Finishing(PcOf(s, Cleaner(c)).todo)
    ensures Inv(Goto(s, Cleaner(c), pc))
  {
    var a := Cleaner(c);
    InvFocus(s, a, p);
    MoveFocus(s, c, p, pc);
    MoveOnly(s, a, p, pc);
    LocalSameRefs(s, a, p, s.procs[p], pc);
    LocalRule(s, a, p, s.procs[p], pc);
  }

  lemma Bundle1Keeps(s: State, c: Cpu)
    requires Inv(s) && HandlerEnabled(s, c, Bundle1)
    ensures Inv(DoBundle1(s, c))
  {
    var a, p := Cleaner(c), PcOf(s, Cleaner(c)).p;
    InvFocus(s, a, p);
    MoveRule(s, c, p, PcOf(DoBundle1(s, c), a));
  }

  lemma SpinKeeps(s: State, c: Cpu)
    requires Inv(s) && HandlerEnabled(s, c, Spin)
    ensures Inv(DoSpin(s, c))
  {
    var a, p := Cleaner(c), PcOf(s, Cleaner(c)).p;
    if s.procs[p].threadNumber == 0 {
      InvFocus(s, a, p);
      MoveRule(s, c, p, On(p, ToBundle2));
    }
  }

  lemma Bundle2Keeps(s: State, c: Cpu)
    requires Inv(s) && HandlerEnabled(s, c, Bundle2)
    ensures Inv(DoBundle2(s, c))
  {
    var a, p := Cleaner(c), PcOf(s, Cleaner(c)).p;
    InvFocus(s, a, p);
    if s.procs[p].threadNumber != 0 {
      MoveRule(s, c, p, On(p, ToFinish));
    } else {
      var y, pc := s.procs[p].(exitLastThread := true), On(p, ToDecide);
      Bundle2Focus(s, c, p);
      LocalSameRefs(s, a, p, y, pc);
      LocalRule(s, a, p, y, pc);
    }
  }

  lemma Bundle2Focus(s: State, c: Cpu, p: Pid)
    requires Focus(s, Cleaner(c), p) && PcOf(s, Cleaner(c)) == On(p, ToBundle2) && s.procs[p].threadNumber == 0
    ensures LocalChange(s, Cleaner(c), p, s.procs[p].(exitLastThread := true), On(p, ToDecide))
    ensures Focus(Local(s, Cleaner(c), p, s.procs[p].(exitLastThread := true), On(p, ToDecide)), Cleaner(c), p)
  {
    LocalParents(s, Cleaner(c), p, s.procs[p].(exitLastThread := true), On(p, ToDecide));
  }

  // Without a live waiting parent the process is orphaned for good.
  lemma NoReaper(s: State, p: Pid)
    requires p in s.procs && RecordOk(s.procs[p]) && ParentOk(s, p)
    ensures !HasWaitReaper(s, p) ==> ParentGone(s, p)
    ensures HasWaitReaper(s, p) ==> s.procs[p].ppid == s.procs[p].creator > 0
  {
  }

  lemma DecideKeeps(s: State, c: Cpu)
    requires Inv(s) && HandlerEnabled(s, c, Decide)
    ensures Inv(DoDecide(s, c))
  {
    var a, p := Cleaner(c), PcOf(s, Cleaner(c)).p;
    InvFocus(s, a, p);
    NoReaper(s, p);
    MoveRule(s, c, p, PcOf(DoDecide(s, c), a));
  }

  lemma CheckParentKeeps(s: State, c: Cpu)
    requires Inv(s) && HandlerEnabled(s, c, CheckParent)
    ensures Inv(DoCheckParent(s, c))
  {
    var a, p := Cleaner(c), PcOf(s, Cleaner(c)).p;
    InvFocus(s, a, p);
    CheckParentMove(s, c);
    MoveRule(s, c, p, PcOf(DoCheckParent(s, c), a));
  }

  // Moving to pc is consistent with what is known about p.
  ghost predicate MoveOk(s: State, c: Cpu, p: Pid, pc: Pc)
    requires p in s.procs
  {
    && Handles(pc, p) && pc.todo != ToDrop
    && (s.procs[p].lastReaper == Some(c) && s.procs[p].exitState.Rank() < 2 ==> BeforeCommit(pc.todo))
    && PcOk(Goto(s, Cleaner(c), pc), Cleaner(c))
  }

  lemma CheckParentMove(s: State, c: Cpu)
    requires HandlerEnabled(s, c, CheckParent) && Focus(s, Cleaner(c), PcOf(s, Cleaner(c)).p)
    ensures MoveOk(s, c, PcOf(s, Cleaner(c)).p, PcOf(DoCheckParent(s, c), Cleaner(c)))
  {
  }

  lemma CommitMove(s: State, c: Cpu)
    requires HandlerEnabled(s, c, Commit) && Focus(s, Cleaner(c), PcOf(s, Cleaner(c)).p)
    requires s.procs[PcOf(s, Cleaner(c)).p].exitState != Zombie
    ensures MoveOk(s, c, PcOf(s, Cleaner(c)).p, On(PcOf(s, Cleaner(c)).p, ToFinish))
  {
  }

  lemma CommitKeeps(s: State, c: Cpu)
    requires Inv(s) && HandlerEnabled(s, c, Commit)
    ensures Inv(DoCommit(s, c))
  {
    var On(p, ToCommit(pp, code)) := PcOf(s, Cleaner(c));
    InvFocus(s, Cleaner(c), p);
    if s.procs[p].exitState == Zombie {
      CommitZombie(s, c, p, pp, code);
    } else {
      CommitMove(s, c);
      MoveRule(s, c, p, On(p, ToFinish));
    }
  }

  lemma CommitZombie(s: State, c: Cpu, p: Pid, pp: Pid, code: int)
    requires Inv(s) && Focus(s, Cleaner(c), p) && PcOf(s, Cleaner(c)) == On(p, ToCommit(pp, code))
    requires s.procs[p].exitState == Zombie
    ensures Inv(Local(s, Cleaner(c), p, Committed(s.procs[p], c), On(p, ToNotify(pp, code))))
  {
    CommitFocus(s, c, p, pp, code);
    CommitRule(s, c, p, Committed(s.procs[p], c), On(p, ToNotify(pp, code)));
  }

  // LocalRule for a handler that keeps its references.
  lemma CommitRule(s: State, c: Cpu, p: Pid, y: Proc, pc: Pc)
    requires Inv(s) && Handles(PcOf(s, Cleaner(c)), p) && Handles(pc, p)
    requires PcOf(s, Cleaner(c)).todo != ToDrop && pc.todo != ToDrop
    requires LocalChange(s, Cleaner(c), p, y, pc) && Focus(Local(s, Cleaner(c), p, y, pc), Cleaner(c), p)
    requires y.refcount == s.procs[p].refcount && y.reap == s.procs[p].reap
    ensures Inv(Local(s, Cleaner(c), p, y, pc))
  {
    InvFocus(s, Cleaner(c), p);
    LocalSameRefs(s, Cleaner(c), p, y, pc);
    LocalRule(s, Cleaner(c), p, y, pc);
  }

  function Committed(x: Proc, c: Cpu): Proc {
    x.(exitState := Notified, commits := x.commits + 1, token := LiveAt(Hand(Cleaner(c))))
  }

  lemma CommitFocus(s: State, c: Cpu, p: Pid, pp: Pid, code: int)
    requires Focus(s, Cleaner(c), p) && PcOf(s, Cleaner(c)) == On(p, ToCommit(pp, code))
             && s.procs[p].exitState == Zombie
    ensures LocalChange(s, Cleaner(c), p, Committed(s.procs[p], c), On(p, ToNotify(pp, code)))
    ensures Focus(Local(s, Cleaner(c), p, Committed(s.procs[p], c), On(p, ToNotify(pp, code))), Cleaner(c), p)
  {
    LocalParents(s, Cleaner(c), p, Committed(s.procs[p], c), On(p, ToNotify(pp, code)));
  }

  lemma HandlerPutKeeps(s: State, c: Cpu)
    requires Inv(s) && HandlerEnabled(s, c, HandlerPut)
    ensures Inv(DoHandlerPut(s, c))
  {
    var a, p := Cleaner(c), PcOf(s, Cleaner(c)).p;
    InvFocus(s, a, p);
    LocalUnpinRefs(s, c, p, Put(s.procs[p]));
    HandlerPutFocus(s, c, p);
    LocalRule(s, a, p, Put(s.procs[p]), Idle);
  }

  lemma HandlerPutFocus(s: State, c: Cpu, p: Pid)
    requires Focus(s, Cleaner(c), p) && PcOf(s, Cleaner(c)) == On(p, ToFinish) && s.procs[p].refcount >= 1
    ensures LocalChange(s, Cleaner(c), p, Put(s.procs[p]), Idle)
    ensures Focus(Local(s, Cleaner(c), p, Put(s.procs[p]), Idle), Cleaner(c), p)
  {
    LocalParents(s, Cleaner(c), p, Put(s.procs[p]), Idle);
  }

  lemma PinKeeps(s: State, c: Cpu)
    requires Inv(s) && HandlerEnabled(s, c, Pin)
    ensures Inv(DoPin(s, c))
  {
    var t := PcOf(s, Cleaner(c)).t;
    var p := s.threads[t].res.value;
    PinPre(s, c, t, p);
    PinFocus(s, c, p, t);
    LocalRule(s, Cleaner(c), p, OneMore(s.procs[p]), On(p, ToDetach(t)));
  }

  function OneMore(x: Proc): Proc {
    x.(refcount := x.refcount + 1)
  }

  lemma PinPre(s: State, c: Cpu, t: Tid, p: Pid)
    requires Inv(s) && t in s.threads && s.threads[t].res == Some(p) && p in s.procs
    ensures Focus(s, Cleaner(c), p) && RefsOk(s, p) && ThreadOk(s, t)
  {
    UnfoldInv(s);
  }

  // An attached thread keeps its process alive.
  lemma AttachedAlive(s: State, p: Pid, t: Tid)
    requires p in s.procs && RefsOk(s, p) && t in s.procs[p].threads
    ensures s.procs[p].refcount >= 1
  {
    HeldCounts(s, p, ThreadRef(t));
  }

  lemma PinFocus(s: State, c: Cpu, p: Pid, t: Tid)
    requires Focus(s, Cleaner(c), p) && PcOf(s, Cleaner(c)) == HasThread(t) && RefsOk(s, p)
    requires s.threads[t].res == Some(p) && ThreadOk(s, t)
    ensures s.procs[p].refcount >= 1
    ensures LocalChange(s, Cleaner(c), p, OneMore(s.procs[p]), On(p, ToDetach(t)))
    ensures Focus(Local(s, Cleaner(c), p, OneMore(s.procs[p]), On(p, ToDetach(t))), Cleaner(c), p)
    ensures RefsOk(Local(s, Cleaner(c), p, OneMore(s.procs[p]), On(p, ToDetach(t))), p)
  {
    AttachedAlive(s, p, t);
    LocalPinRefs(s, c, p, OneMore(s.procs[p]), On(p, ToDetach(t)));
    LocalParents(s, Cleaner(c), p, OneMore(s.procs[p]), On(p, ToDetach(t)));
  }
}

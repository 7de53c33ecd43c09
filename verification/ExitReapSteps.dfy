/**
 linux_proc_reap and the wait4 test in front of it keep the invariant.
 */
module ExitReapSteps {
  import opened ExitProtocol
  import opened ExitInvariant
  import opened ExitFrames
  import opened ExitHandlerSteps

  // A process with an attached thread can be found by its pid.
  lemma AttachedRegistered(s: State, t: Tid)
    requires AllThreads(s) && AllRecords(s) && t in s.threads && s.threads[t].res.Some?
    ensures s.threads[t].res.value in s.procs && s.procs[s.threads[t].res.value].registered
    ensures s.procs[s.threads[t].res.value].reap.Unclaimed?
  {
    assert ThreadOk(s, t);
    assert RecordOk(s.procs[s.threads[t].res.value]);
  }

  // Nobody is about to adopt a process that its own reaper can claim: the reaper of
  // the parent has it on its list only while the parent is registered and has no
  // threads left to wait.
  lemma NoAdoption(s: State, a: Agent, p: Pid, b: Agent)
    requires Inv(s) && PcOf(s, a) == On(p, ToClaim) && p in s.procs
    ensures !Adopts(s, b, p)
  {
    if Adopts(s, b, p) {
      var pp := PcOf(s, b).p;
      InvFocus(s, b, p);
      assert PcOk(s, a) by { assert Holds(Positions, s); }
      ReapingIsRegistered(s, b);
      if a.Waiter? {
        assert AllThreads(s) && AllRecords(s) by { UnfoldInv(s); }
        AttachedRegistered(s, a.tid);
      }
      AdoptionIsLate(s, a, p, pp);
    }
  }

  lemma ReapingIsRegistered(s: State, b: Agent)
    requires Inv(s) && PcOf(s, b).On? && PcOf(s, b).todo.ToAdopt?
    ensures var pp := PcOf(s, b).p; pp > 0 && pp in s.procs && s.procs[pp].registered && !s.procs[pp].reap.Unclaimed?
  {
    assert PcOk(s, b) by { assert Holds(Positions, s); }
    InvFocus(s, b, PcOf(s, b).p);
  }

  lemma AdoptionIsLate(s: State, a: Agent, p: Pid, pp: Pid)
    requires p in s.procs && PcOk(s, a) && PcOf(s, a) == On(p, ToClaim) && RecordOk(s.procs[p]) && pp > 0
    requires pp in s.procs && s.procs[pp].registered && !s.procs[pp].reap.Unclaimed?
    requires a.Waiter? ==> s.procs[p].creator in s.procs && s.procs[s.procs[p].creator].reap.Unclaimed?
    ensures s.procs[p].ppid != pp
  {
  }

  // Nobody waits for an orphan.
  lemma OrphanHasNoWaiter(s: State, p: Pid)
    requires Inv(s) && p in s.procs && ParentGone(s, p)
    ensures forall b :: !WaiterOn(s, b, p)
  {
    UnfoldInv(s);
    assert ParentOk(s, p);
    forall b | WaiterOn(s, b, p) ensures false {
      AttachedRegistered(s, b.tid);
    }
  }

  function Claiming(x: Proc, a: Agent): Proc {
    x.(exitState := Claimed, reap := MustFini(a))
  }

  lemma ClaimKeeps(s: State, a: Agent)
    requires Inv(s) && ReapEnabled(s, a, Claim)
    ensures Inv(DoClaim(s, a))
  {
    var p := PcOf(s, a).p;
    InvFocus(s, a, p);
    forall b ensures !Adopts(s, b, p) { NoAdoption(s, a, p, b); }
    if a.Cleaner? {
      OrphanHasNoWaiter(s, p);
      if s.procs[p].exitState == Claimed {
        MoveRule(s, a.cpu, p, On(p, ToFinish));
      } else {
        ClaimRule(s, a, p);
      }
    } else {
      ClaimRule(s, a, p);
    }
  }

  lemma ClaimRule(s: State, a: Agent, p: Pid)
    requires Inv(s) && Focus(s, a, p) && RefsOk(s, p) && PcOf(s, a) == On(p, ToClaim) && s.procs[p].exitState != Claimed
    requires a.Cleaner? ==> forall b :: !WaiterOn(s, b, p)
    requires forall b :: !Adopts(s, b, p)
    ensures Inv(Local(s, a, p, Claiming(s.procs[p], a), On(p, ToDrain)))
  {
    ClaimFocus(s, a, p);
    LocalSameRefs(s, a, p, Claiming(s.procs[p], a), On(p, ToDrain));
    LocalRule(s, a, p, Claiming(s.procs[p], a), On(p, ToDrain));
  }

  lemma ClaimFocus(s: State, a: Agent, p: Pid)
    requires Focus(s, a, p) && PcOf(s, a) == On(p, ToClaim) && s.procs[p].exitState != Claimed
    requires a.Cleaner? ==> forall b :: !WaiterOn(s, b, p)
    requires forall b :: !Adopts(s, b, p)
    ensures LocalChange(s, a, p, Claiming(s.procs[p], a), On(p, ToDrain))
    ensures Focus(Local(s, a, p, Claiming(s.procs[p], a), On(p, ToDrain)), a, p)
  {
    LocalParents(s, a, p, Claiming(s.procs[p], a), On(p, ToDrain));
  }

  function Dropped(x: Proc, a: Agent): Proc {
    var y := Put(x).(reap := Reaped(a));
    if a.Cleaner? then y else y.(token := Consumed, waited := y.waited + 1)
  }

  lemma PutBaseKeeps(s: State, a: Agent)
    requires Inv(s) && ReapEnabled(s, a, PutBase)
    ensures Inv(DoPutBase(s, a))
  {
    var p := PcOf(s, a).p;
    InvFocus(s, a, p);
    PutBaseFocus(s, a, p);
    LocalRule(s, a, p, Dropped(s.procs[p], a), if a.Cleaner? then On(p, ToFinish) else Idle);
  }

  lemma PutBaseFocus(s: State, a: Agent, p: Pid)
    requires Focus(s, a, p) && RefsOk(s, p) && PcOf(s, a) == On(p, ToPutBase)
    ensures LocalChange(s, a, p, Dropped(s.procs[p], a), if a.Cleaner? then On(p, ToFinish) else Idle)
    ensures Focus(Local(s, a, p, Dropped(s.procs[p], a), if a.Cleaner? then On(p, ToFinish) else Idle), a, p)
    ensures RefsOk(Local(s, a, p, Dropped(s.procs[p], a), if a.Cleaner? then On(p, ToFinish) else Idle), p)
  {
    var pc := if a.Cleaner? then On(p, ToFinish) else Idle;
    LocalBaseRefs(s, a, p, Dropped(s.procs[p], a), pc);
    LocalParents(s, a, p, Dropped(s.procs[p], a), pc);
  }

  // A notification in the hands of wait4 always passes the test of
  // wait4_finish_reap, and linux_proc_reap then claims the child.
  lemma NoteReapable(s: State, t: Tid)
    requires Inv(s) && PcOf(s, Waiter(t)).InHand?
    ensures OwnThread(s, t) && PcOf(s, Waiter(t)).note.child in s.procs
    ensures Reapable(s, PcOf(s, Waiter(t)).note, s.threads[t].res.value)
    ensures s.procs[PcOf(s, Waiter(t)).note.child].exitCode == PcOf(s, Waiter(t)).note.code
  {
    UnfoldInv(s);
    assert PcOk(s, Waiter(t));
    var c := PcOf(s, Waiter(t)).note.child;
    AttachedRegistered(s, t);
    assert RecordOk(s.procs[c]) && ParentOk(s, c);
  }

  lemma CheckChildKeeps(s: State, t: Tid, fault: bool)
    requires Inv(s) && WaitEnabled(s, t, CheckChild(fault))
    ensures Inv(DoCheckChild(s, t, fault))
  {
    var n, a := PcOf(s, Waiter(t)).note, Waiter(t);
    NoteReapable(s, t);
    InvFocus(s, a, n.child);
    var x := s.procs[n.child];
    var y, pc := if fault then x.(token := Consumed) else x, if fault then Idle else On(n.child, ToClaim);
    CheckChildFocus(s, t, n, y, pc);
    LocalSameRefs(s, a, n.child, y, pc);
    LocalRule(s, a, n.child, y, pc);
    assert x.(exitCode := n.code) == x;
    assert s.procs[n.child := x][n.child := y] == s.procs[n.child := y];
  }

  lemma CheckChildFocus(s: State, t: Tid, n: Note, y: Proc, pc: Pc)
    requires Focus(s, Waiter(t), n.child) && PcOf(s, Waiter(t)) == InHand(n)
    requires (y == s.procs[n.child] && pc == On(n.child, ToClaim))
             || (y == s.procs[n.child].(token := Consumed) && pc == Idle)
    ensures LocalChange(s, Waiter(t), n.child, y, pc)
    ensures Focus(Local(s, Waiter(t), n.child, y, pc), Waiter(t), n.child)
  {
    LocalParents(s, Waiter(t), n.child, y, pc);
  }
}

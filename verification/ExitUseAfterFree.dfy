/**
 A run in which a listener writes into the pending list of a parent that has been
 freed: the parent is looked up in the registry, exits, is reaped and freed on
 another CPU, and then the push comes.  And a run in which wait4 loses a child.
 */
module ExitUseAfterFree {
  import opened Wrappers
  import opened ExitProtocol
  import opened ExitTheorems

  ghost predicate Reachable(s: State) { forall seal: Seal :: EndsRun(seal, s) }

  ghost predicate EndsRun(seal: Seal, s: State) {
    exists run, steps :: IsRun(run, steps) && run[|steps|] == s
  }

  lemma Start()
    ensures Reachable(INITIAL)
  {
    assert IsRun([INITIAL], []);
    assert [INITIAL][0] == INITIAL;
  }

  lemma Go(s: State, step: Step)
    requires Reachable(s) && Enabled(s, step)
    ensures Reachable(Apply(s, step))
  {
    assert EndsRun(Seal, s);
    var run, steps :| IsRun(run, steps) && run[|steps|] == s;
    var run', steps' := run + [Apply(s, step)], steps + [step];
    assert IsRun(run', steps') && run'[|steps'|] == Apply(s, step);
  }

  // The only thread of a process calls sys_exit(0).
  lemma ThreadExits(s: State, p: Pid, t: Tid) returns (s': State)
    requires Reachable(s) && Runnable(s, t) && s.threads[t].res == Some(p) && s.procs[p].threadNumber == 1
    ensures Reachable(s')
    ensures s' == s.(procs := s.procs[p := s.procs[p].(exitCode := 0, exitState := Zombie, exitLastThread := true)],
                     threads := s.threads[t := Thread(Some(p), Queued)], reapQueue := s.reapQueue + [t])
  {
    var s1 := DoMarkCode(s, t, 0);
    Go(s, ByThread(MarkCode(t, 0)));
    var s2 := DoMarkState(s1, t);
    Go(s1, ByThread(MarkState(t)));
    var s3 := DoMarkHint(s2, t);
    Go(s2, ByThread(MarkHint(t)));
    s' := DoSendReap(s3, t);
    Go(s3, ByThread(SendReap(t)));
    assert s'.procs == s.procs[p := s.procs[p].(exitCode := 0, exitState := Zombie, exitLastThread := true)];
    assert s'.threads == s.threads[t := Thread(Some(p), Queued)];
  }

  // A listener takes up the exit of that thread ...
  lemma ThreadIsPinned(s: State, c: Cpu, p: Pid, t: Tid) returns (s': State)
    requires Reachable(s) && PcOf(s, Cleaner(c)) == Idle && PollOf(s, c) == NoPoll && s.reapQueue == [t]
    requires p in s.procs && t in s.threads && s.threads[t] == Thread(Some(p), Queued) && s.procs[p].refcount == 2
    ensures Reachable(s')
    ensures s' == s.(procs := s.procs[p := s.procs[p].(refcount := 3)],
                     threads := s.threads[t := Thread(Some(p), Reaping(c))],
                     pcs := s.pcs[Cleaner(c) := On(p, ToDetach(t))], reapQueue := [])
  {
    var s1 := DoTakeReap(s, c);
    Go(s, ByHandler(c, TakeReap));
    s' := DoPin(s1, c);
    Go(s1, ByHandler(c, Pin));
    assert s'.pcs == s.pcs[Cleaner(c) := On(p, ToDetach(t))];
  }

  // ... detaches it and drops its reference ...
  lemma ThreadIsDetached(s: State, c: Cpu, p: Pid, t: Tid) returns (s': State)
    requires Reachable(s) && PcOf(s, Cleaner(c)) == On(p, ToDetach(t)) && PollOf(s, c) == NoPoll
    requires p in s.procs && t in s.threads && s.threads[t] == Thread(Some(p), Reaping(c))
    requires s.procs[p].refcount == 3 && s.procs[p].threadNumber == 1 && s.procs[p].threads == {t}
    ensures Reachable(s')
    ensures s' == s.(procs := s.procs[p := Detached(s.procs[p], c)],
                     threads := s.threads[t := Thread(None, Reaping(c))], pcs := s.pcs[Cleaner(c) := On(p, ToBundle1)])
  {
    var s1 := DoDetachLock(s, c);
    Go(s, ByHandler(c, DetachLock));
    s' := DoDetachPut(s1, c);
    Go(s1, ByHandler(c, DetachPut));
    assert s1.procs[p].threads == {};
    assert s'.procs == s.procs[p := Detached(s.procs[p], c)];
    assert s'.pcs == s.pcs[Cleaner(c) := On(p, ToBundle1)];
  }

  function Detached(x: Proc, c: Cpu): Proc {
    x.(refcount := 2, threadNumber := 0, threads := {}, lastReaper := Some(c))
  }

  // ... and finds that it was the last.
  lemma ThreadWasLast(s: State, c: Cpu, p: Pid) returns (s': State)
    requires Reachable(s) && PcOf(s, Cleaner(c)) == On(p, ToBundle1) && PollOf(s, c) == NoPoll
    requires p in s.procs && s.procs[p].threadNumber == 0 && s.procs[p].exitLastThread
    ensures Reachable(s') && s' == s.(pcs := s.pcs[Cleaner(c) := On(p, ToDecide)])
  {
    var s1 := DoBundle1(s, c);
    Go(s, ByHandler(c, Bundle1));
    s' := DoBundle2(s1, c);
    Go(s1, ByHandler(c, Bundle2));
    assert s'.procs == s.procs;
    assert s'.pcs == s.pcs[Cleaner(c) := On(p, ToDecide)];
  }

  // A process whose only thread has exited is at the decision of a listener.
  lemma ProcessExits(s: State, c: Cpu, p: Pid, t: Tid) returns (s': State)
    requires Reachable(s) && Runnable(s, t) && s.threads[t].res == Some(p) && s.reapQueue == []
    requires s.procs[p].threadNumber == 1 && s.procs[p].threads == {t} && s.procs[p].refcount == 2
    requires PcOf(s, Cleaner(c)) == Idle && PollOf(s, c) == NoPoll
    ensures Reachable(s')
    ensures s' == s.(procs := s.procs[p := Exited(s.procs[p], c)], threads := s.threads[t := Thread(None, Reaping(c))],
                     pcs := s.pcs[Cleaner(c) := On(p, ToDecide)])
  {
    var s1 := ThreadExits(s, p, t);
    assert s1.reapQueue == [t];
    var s2 := ThreadIsPinned(s1, c, p, t);
    var s3 := ThreadIsDetached(s2, c, p, t);
    s' := ThreadWasLast(s3, c, p);
    assert s'.procs == s.procs[p := Exited(s.procs[p], c)];
    assert s'.threads == s.threads[t := Thread(None, Reaping(c))];
    assert s'.pcs == s.pcs[Cleaner(c) := On(p, ToDecide)];
  }

  function Exited(x: Proc, c: Cpu): Proc {
    x.(exitCode := 0, exitState := Zombie, exitLastThread := true, threadNumber := 0, threads := {},
        lastReaper := Some(c))
  }

  // The listener decides to notify the parent, commits, fails to post, and looks
  // the parent up for the fallback.
  lemma ChildIsNotified(s: State, c: Cpu, p: Pid, pp: Pid) returns (s': State)
    requires Reachable(s) && PcOf(s, Cleaner(c)) == On(p, ToDecide) && PollOf(s, c) == NoPoll && p in s.procs
    requires s.procs[p].exitState == Zombie && s.procs[p].ppid == pp && s.procs[p].exitCode == 0 && Found(s, pp)
    ensures Reachable(s')
    ensures s' == s.(procs := s.procs[p := Notifying(s.procs[p], c)],
                     pcs := s.pcs[Cleaner(c) := On(p, ToNotify(pp, 0))])
  {
    var s2 := ParentIsThere(s, c, p, pp);
    s' := DoCommit(s2, c);
    Go(s2, ByHandler(c, Commit));
    assert s'.pcs == s.pcs[Cleaner(c) := On(p, ToNotify(pp, 0))];
  }

  lemma ParentIsThere(s: State, c: Cpu, p: Pid, pp: Pid) returns (s': State)
    requires Reachable(s) && PcOf(s, Cleaner(c)) == On(p, ToDecide) && PollOf(s, c) == NoPoll && p in s.procs
    requires s.procs[p].exitState == Zombie && s.procs[p].ppid == pp && s.procs[p].exitCode == 0 && Found(s, pp)
    ensures Reachable(s') && s' == s.(pcs := s.pcs[Cleaner(c) := On(p, ToCommit(pp, 0))])
  {
    var s1 := DoDecide(s, c);
    Go(s, ByHandler(c, Decide));
    s' := DoCheckParent(s1, c);
    Go(s1, ByHandler(c, CheckParent));
    assert s'.pcs == s.pcs[Cleaner(c) := On(p, ToCommit(pp, 0))];
  }

  function Notifying(x: Proc, c: Cpu): Proc {
    x.(exitState := Notified, commits := x.commits + 1, token := LiveAt(Hand(Cleaner(c))))
  }

  lemma ParentIsFound(s: State, c: Cpu, p: Pid, pp: Pid) returns (s': State)
    requires Reachable(s) && PcOf(s, Cleaner(c)) == On(p, ToNotify(pp, 0)) && PollOf(s, c) == NoPoll && p in s.procs
    requires Found(s, pp)
    ensures Reachable(s') && s' == s.(pcs := s.pcs[Cleaner(c) := On(p, ToPush(pp, 0))])
  {
    var s1 := DoNotify(s, c, Fail, false);
    Go(s, ByHandler(c, Notify(Fail, false)));
    s' := DoFindParent(s1, c);
    Go(s1, ByHandler(c, FindParent));
    assert s'.pcs == s.pcs[Cleaner(c) := On(p, ToPush(pp, 0))];
  }

  // What the end of process p on CPU c leaves alone: the other listener's position.
  ghost predicate Beside(s: State, s': State, c: Cpu) {
    && s'.procs.Keys == s.procs.Keys && s'.polls == s.polls
    && (forall d :: d != c ==> PcOf(s', Cleaner(d)) == PcOf(s, Cleaner(d)))
  }

  lemma OrphanIsClaimed(s: State, c: Cpu, p: Pid) returns (s': State)
    requires Reachable(s) && PcOf(s, Cleaner(c)) == On(p, ToDecide) && PollOf(s, c) == NoPoll && p in s.procs
    requires s.procs[p].exitState == Zombie && s.procs[p].ppid == 0 && s.procs[p].threadNumber == 0
    requires Mail(s, Pending(p)) == []
    ensures Reachable(s') && Beside(s, s', c) && PcOf(s', Cleaner(c)) == On(p, ToScan(1))
    ensures s'.procs[p] == s.procs[p].(exitState := Claimed, reap := MustFini(Cleaner(c)))
  {
    var s1 := DoDecide(s, c);
    Go(s, ByHandler(c, Decide));
    s' := ClaimAndDrain(s1, c, p);
  }

  lemma ClaimAndDrain(s: State, c: Cpu, p: Pid) returns (s': State)
    requires Reachable(s) && PcOf(s, Cleaner(c)) == On(p, ToClaim) && p in s.procs
    requires s.procs[p].exitState == Zombie && s.procs[p].threadNumber == 0 && Mail(s, Pending(p)) == []
    ensures Reachable(s') && Beside(s, s', c) && PcOf(s', Cleaner(c)) == On(p, ToScan(1))
    ensures s'.procs[p] == s.procs[p].(exitState := Claimed, reap := MustFini(Cleaner(c)))
  {
    var s1 := DoClaim(s, Cleaner(c));
    Go(s, ByReaper(Cleaner(c), Claim));
    assert Mail(s1, Pending(p)) == [];
    s' := Goto(s1, Cleaner(c), On(p, ToScan(1)));
    Go(s1, ByReaper(Cleaner(c), DrainDone));
  }

  lemma AdoptOne(s: State, c: Cpu, p: Pid, k: Pid) returns (s': State)
    requires Reachable(s) && PcOf(s, Cleaner(c)) == On(p, ToScan(k)) && k < PID_SCAN_MAX && p in s.procs
             && s.procs[p].ppid == 0 < p
    requires Found(s, k)
    ensures Reachable(s') && Beside(s, s', c) && PcOf(s', Cleaner(c)) == On(p, ToScan(k + 1))
            && s'.procs[p] == s.procs[p]
  {
    var s1 := DoScan(s, Cleaner(c));
    Go(s, ByReaper(Cleaner(c), ScanFind));
    s' := AdoptFound(s1, c, p, k);
  }

  lemma AdoptFound(s: State, c: Cpu, p: Pid, k: Pid) returns (s': State)
    requires Reachable(s) && PcOf(s, Cleaner(c)) == On(p, ToAdopt(k)) && p in s.procs && k in s.procs
    requires s.procs[p].ppid == 0 < p
    ensures Reachable(s') && Beside(s, s', c) && PcOf(s', Cleaner(c)) == On(p, ToScan(k + 1))
            && s'.procs[p] == s.procs[p]
  {
    s' := DoAdopt(s, Cleaner(c));
    Go(s, ByReaper(Cleaner(c), Adopt));
  }

  lemma ScanOne(s: State, c: Cpu, p: Pid, k: Pid) returns (s': State)
    requires Reachable(s) && PcOf(s, Cleaner(c)) == On(p, ToScan(k)) && k < PID_SCAN_MAX && p in s.procs
             && s.procs[p].ppid == 0 < p
    ensures Reachable(s') && Beside(s, s', c) && PcOf(s', Cleaner(c)) == On(p, ToScan(k + 1))
            && s'.procs[p] == s.procs[p]
  {
    var a := Cleaner(c);
    if Found(s, k) {
      s' := AdoptOne(s, c, p, k);
    } else {
      s' := DoScan(s, a);
      Go(s, ByReaper(a, ScanMiss));
    }
  }

  lemma {:induction false} ScanAll(s: State, c: Cpu, p: Pid, k: Pid) returns (s': State)
    requires Reachable(s) && PcOf(s, Cleaner(c)) == On(p, ToScan(k)) && k <= PID_SCAN_MAX && p in s.procs
             && s.procs[p].ppid == 0 < p
    ensures Reachable(s') && Beside(s, s', c) && PcOf(s', Cleaner(c)) == On(p, ToScan(PID_SCAN_MAX))
            && s'.procs[p] == s.procs[p]
    decreases PID_SCAN_MAX - k
  {
    if k == PID_SCAN_MAX {
      s' := s;
    } else {
      var s1 := ScanOne(s, c, p, k);
      s' := ScanAll(s1, c, p, k + 1);
    }
  }

  lemma ProcessIsFreed(s: State, c: Cpu, p: Pid) returns (s': State)
    requires Reachable(s) && PcOf(s, Cleaner(c)) == On(p, ToScan(PID_SCAN_MAX)) && PollOf(s, c) == NoPoll
             && p in s.procs
    requires s.procs[p].refcount == 2 && s.procs[p].frees == 0
    ensures Reachable(s') && Beside(s, s', c) && s'.procs[p].frees == 1
  {
    var a := Cleaner(c);
    var s1 := DoUnregister(s, a);
    Go(s, ByReaper(a, Unregister));
    s' := LastPuts(s1, c, p);
  }

  lemma LastPuts(s: State, c: Cpu, p: Pid) returns (s': State)
    requires Reachable(s) && PcOf(s, Cleaner(c)) == On(p, ToPutBase) && PollOf(s, c) == NoPoll && p in s.procs
    requires s.procs[p].refcount == 2 && s.procs[p].frees == 0
    ensures Reachable(s') && Beside(s, s', c) && s'.procs[p].frees == 1
  {
    var s1 := BasePut(s, c, p);
    s' := DoHandlerPut(s1, c);
    Go(s1, ByHandler(c, HandlerPut));
  }

  lemma BasePut(s: State, c: Cpu, p: Pid) returns (s': State)
    requires Reachable(s) && PcOf(s, Cleaner(c)) == On(p, ToPutBase) && p in s.procs
    requires s.procs[p].refcount == 2 && s.procs[p].frees == 0
    ensures Reachable(s') && Beside(s, s', c) && PcOf(s', Cleaner(c)) == On(p, ToFinish)
    ensures s'.procs[p].refcount == 1 && s'.procs[p].frees == 0
  {
    s' := DoPutBase(s, Cleaner(c));
    Go(s, ByReaper(Cleaner(c), PutBase));
  }

  // Process 1 and its child 2
  lemma Family() returns (s: State)
    ensures Reachable(s)
    ensures s == INITIAL.(procs := map[1 := NewProc(0, 1), 2 := NewProc(1, 2)],
                          threads := map[1 := Thread(Some(1), Live), 2 := Thread(Some(2), Live)])
  {
    Start();
    var s1 := DoNew(INITIAL, 1, 1, 0);
    Go(INITIAL, ByThread(Boot(1, 1)));
    s := DoNew(s1, 2, 2, 1);
    Go(s1, ByThread(Fork(1, 2, 2)));
    assert s.procs == map[1 := NewProc(0, 1), 2 := NewProc(1, 2)];
    assert s.threads == map[1 := Thread(Some(1), Live), 2 := Thread(Some(2), Live)];
  }

  // The child exits on CPU 0, up to the push.
  lemma ChildAtPush() returns (s: State)
    ensures Reachable(s) && s.procs.Keys == {1, 2} && s.procs[1] == NewProc(0, 1) && s.threads.Keys == {1, 2}
    ensures s.threads[1] == Thread(Some(1), Live) && s.reapQueue == [] && s.polls == map[] && s.mail == map[]
    ensures s.pcs == map[Cleaner(0) := On(2, ToPush(1, 0))]
  {
    var s0 := Family();
    var s1 := ProcessExits(s0, 0, 2, 2);
    var s2 := ChildIsNotified(s1, 0, 2, 1);
    s := ParentIsFound(s2, 0, 2, 1);
    assert s.pcs == map[Cleaner(0) := On(2, ToPush(1, 0))];
  }

  // Then the parent exits on CPU 1, is reaped and freed, and CPU 0 is about to
  // write into it.
  lemma PushIntoFreedParent() returns (s: State, step: Step)
    ensures Reachable(s) && step == ByHandler(0, PushPending(true)) && Enabled(s, step)
    ensures 1 in Touched(s, step) && 1 in s.procs && s.procs[1].frees == 1
  {
    var s0 := ChildAtPush();
    var s1 := ProcessExits(s0, 1, 1, 1);
    var s2 := OrphanIsClaimed(s1, 1, 1);
    var s3 := ScanAll(s2, 1, 1, 1);
    s := ProcessIsFreed(s3, 1, 1);
    step := ByHandler(0, PushPending(true));
    assert PcOf(s, Cleaner(0)) == On(2, ToPush(1, 0));
  }

  // ---- a child that is lost

  // The notification of the child is in the hand of its parent's wait4.
  lemma ChildInHand() returns (s: State)
    ensures Reachable(s) && s.procs.Keys == {1, 2} && s.threads.Keys == {1, 2} && s.threads[1] == Thread(Some(1), Live)
    ensures PcOf(s, Waiter(1)) == InHand(Note(1, 2, 0))
    ensures s.procs[2] == Notifying(Exited(NewProc(1, 2), 0), 0).(token := LiveAt(Hand(Waiter(1))))
  {
    var s0 := Family();
    var s1 := ProcessExits(s0, 0, 2, 2);
    var s2 := ChildIsNotified(s1, 0, 2, 1);
    var s3 := NoteIsPosted(s2);
    s := DoReceive(s3, 1);
    Go(s3, ByWaiter(1, Receive));
  }

  lemma NoteIsPosted(s: State) returns (s': State)
    requires Reachable(s) && PcOf(s, Cleaner(0)) == On(2, ToNotify(1, 0)) && PollOf(s, 0) == NoPoll && s.mail == map[]
    requires s.procs.Keys == {1, 2}
    ensures Reachable(s') && s'.procs == s.procs[2 := s.procs[2].(token := LiveAt(WaitPort(1)))]
    ensures s'.threads == s.threads && Mail(s', WaitPort(1)) == [Note(1, 2, 0)]
    ensures s'.pcs == s.pcs[Cleaner(0) := On(2, ToFinish)]
  {
    s' := DoNotify(s, 0, Delivered, false);
    Go(s, ByHandler(0, Notify(Delivered, false)));
  }

  // The store of the status faults: the notification is gone, and the child is a
  // registered zombie that nobody has reaped and wait4 has not returned.
  lemma StatusFaultLosesChild() returns (s: State, s': State)
    ensures Reachable(s) && PcOf(s, Waiter(1)).InHand? && Enabled(s, ByWaiter(1, CheckChild(true)))
    ensures s' == Apply(s, ByWaiter(1, CheckChild(true))) && Reachable(s') && PcOf(s', Waiter(1)) == Idle
    ensures 2 in s'.procs && s'.procs[2].token == Consumed && s'.procs[2].waited == 0
    ensures s'.procs[2].registered && s'.procs[2].reap == Unclaimed && s'.procs[2].exitState == Notified
  {
    s := ChildInHand();
    s' := DoCheckChild(s, 1, true);
    Go(s, ByWaiter(1, CheckChild(true)));
  }
}

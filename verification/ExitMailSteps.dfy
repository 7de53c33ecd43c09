/**
 Steps that move an exit notification keep the invariant.
 */
module ExitMailSteps {
  import opened ExitProtocol
  import opened ExitInvariant
  import opened ExitFrames
  import opened ExitHandlerSteps
  import opened ExitReapSteps

  // A token that no port, job list or pending list holds.
  predicate Unmailed(k: Token) {
    k.LiveAt? ==> k.holder.Hand?
  }

  function Taken(s: State, h: Holder, i: nat): State
    requires i < |Mail(s, h)|
  {
    s.(mail := s.mail[h := Remove(Mail(s, h), i)])
  }

  lemma MailTake(s: State, h: Holder, i: nat, k: Token)
    requires AllMail(s) && i < |Mail(s, h)| && Mail(s, h)[i].child in s.procs && Unmailed(k)
    ensures AllMail(SetToken(Taken(s, h, i), Mail(s, h)[i].child, k))
  {
    var c := Mail(s, h)[i].child;
    var s' := SetToken(Taken(s, h, i), c, k);
    assert MailOk(s, h);
    forall g ensures MailOk(s', g) {
      assert MailOk(s, g);
      if g != h { assert Mail(s', g) == Mail(s, g); }
    }
  }

  lemma MailGain(s: State, h: Holder, n: Note)
    requires AllMail(s) && n.child in s.procs && Unmailed(s.procs[n.child].token)
    requires n.ppid == s.procs[n.child].creator && n.ppid > 0 && n.code == s.procs[n.child].exitCode
    requires Addressed(h, n)
    ensures AllMail(Enqueue(s, h, n))
  {
    var s' := Enqueue(s, h, n);
    assert MailOk(s, h);
    forall g ensures MailOk(s', g) {
      assert MailOk(s, g);
      if g != h { assert Mail(s', g) == Mail(s, g); }
    }
  }

  lemma MailLost(s: State, c: Pid)
    requires AllMail(s) && c in s.procs && Unmailed(s.procs[c].token)
    ensures AllMail(SetToken(s, c, Consumed))
  {
    var s' := SetToken(s, c, Consumed);
    forall g ensures MailOk(s', g) { assert MailOk(s, g) && Mail(s', g) == Mail(s, g); }
  }

  lemma MailMove(s: State, a: Agent, pc: Pc)
    requires AllMail(s)
    ensures AllMail(Goto(s, a, pc))
  {
    var s' := Goto(s, a, pc);
    forall g ensures MailOk(s', g) { assert MailOk(s, g) && Mail(s', g) == Mail(s, g); }
  }

  // s' gives the token of c the value k, moves agent a to pc and changes mail.
  ghost predicate TokenStep(s: State, s': State, a: Agent, c: Pid, k: Token, pc: Pc) {
    && c in s.procs
    && s'.procs == s.procs[c := s.procs[c].(token := k)]
    && PcOf(s', a) == pc && (forall b :: b != a ==> PcOf(s', b) == PcOf(s, b))
    && s'.threads == s.threads && s'.reapQueue == s.reapQueue
  }

  lemma TokenFrame(s: State, s': State, a: Agent, c: Pid, k: Token, pc: Pc)
    requires TokenStep(s, s', a, c, k, pc)
    requires s.procs[c].token.LiveAt? && (s.procs[c].token.holder.Hand? ==> s.procs[c].token.holder.agent == a)
    requires pc == PcOf(s, a) || (Only(PcOf(s, a), c) && Only(pc, c))
    ensures Frame(s, s', a, c)
  {
  }

  lemma TokenRefs(s: State, s': State, a: Agent, c: Pid, k: Token, pc: Pc)
    requires TokenStep(s, s', a, c, k, pc) && RefsOk(s, c)
    requires a.Cleaner? ==> Handles(PcOf(s, a), c) == Handles(pc, c)
    requires a.Cleaner? ==> (PcOf(s, a) == On(c, ToDrop) <==> pc == On(c, ToDrop))
    ensures RefsOk(s', c)
  {
    SameRefs(s, s', a, c);
  }

  // The token of c was sent and waits for no waiter that already claimed c.
  ghost predicate Movable(x: Proc, k: Token) {
    && x.token.LiveAt? && !k.NotSent?
    && (x.reap.Unclaimed? || x.reap.agent.Cleaner? || k.Consumed?)
  }

  predicate InFini(pc: Pc) { pc.On? && Finishing(pc.todo) }

  lemma TokenFocus(s: State, s': State, a: Agent, c: Pid, k: Token, pc: Pc)
    requires TokenStep(s, s', a, c, k, pc) && Focus(s, a, c) && Movable(s.procs[c], k)
    requires pc == PcOf(s, a) || ((a.Cleaner? ==> s.procs[c].exitState.Rank() >= 2) && !InFini(PcOf(s, a)))
    requires PcOk(s', a)
    ensures Focus(s', a, c)
  {
  }

  // One rule for all moves of a notification.
  lemma TokenRule(s: State, s': State, a: Agent, c: Pid, k: Token, pc: Pc)
    requires Inv(s) && TokenStep(s, s', a, c, k, pc) && Movable(s.procs[c], k)
    requires s.procs[c].token.holder.Hand? ==> s.procs[c].token.holder.agent == a
    requires pc == PcOf(s, a) || (Only(PcOf(s, a), c) && Only(pc, c) && !InFini(PcOf(s, a)))
    requires a.Cleaner? ==> Handles(PcOf(s, a), c) == Handles(pc, c)
    requires a.Cleaner? ==> (PcOf(s, a) == On(c, ToDrop) <==> pc == On(c, ToDrop))
    requires PcOk(s', a) && AllMail(s')
    ensures Inv(s')
  {
    InvFocus(s, a, c);
    TokenFrame(s, s', a, c, k, pc);
    TokenRefs(s, s', a, c, k, pc);
    assert s.procs[c].exitState.Rank() >= 2;
    TokenFocus(s, s', a, c, k, pc);
    FrameRule(s, s', a, c);
  }

  // A waiter that claimed c holds its token or has used it up.
  lemma ClaimedByCleaner(s: State, c: Pid)
    requires c in s.procs && RecordOk(s.procs[c]) && s.procs[c].token.LiveAt?
    requires s.procs[c].token.holder.Hand? ==> s.procs[c].token.holder.agent.Cleaner?
    ensures s.procs[c].reap.Unclaimed? || s.procs[c].reap.agent.Cleaner?
  {
  }

  // A listener delivers, parks, stores or loses the notification in its hand.
  lemma HandKeeps(s: State, c: Cpu, s1: State)
    requires Inv(s) && PcOf(s, Cleaner(c)).On? && PcOf(s, Cleaner(c)).p in s.procs
    requires var todo := PcOf(s, Cleaner(c)).todo; todo.ToNotify? || todo.ToFindParent? || todo.ToPush?
    requires var pc := PcOf(s, Cleaner(c));
             var n := Note(pc.todo.parent, pc.p, pc.todo.code);
             || s1 == Lose(s, n) || s1 == Enqueue(s, WaitPort(n.ppid), n)
             || s1 == Enqueue(s, Pending(n.ppid), n) || s1 == Enqueue(s, ParkedJobs(c), n)
    ensures Inv(Goto(s1, Cleaner(c), On(PcOf(s, Cleaner(c)).p, ToFinish)))
  {
    var a, p, todo := Cleaner(c), PcOf(s, Cleaner(c)).p, PcOf(s, Cleaner(c)).todo;
    var n := Note(todo.parent, p, todo.code);
    var s' := Goto(s1, a, On(p, ToFinish));
    InvFocus(s, a, p);
    assert AllMail(s') by {
      assert Holds(Letters, s);
      MailLost(s, p);
      MailGain(s, WaitPort(n.ppid), n);
      MailGain(s, Pending(n.ppid), n);
      MailGain(s, ParkedJobs(c), n);
      MailMove(s1, a, On(p, ToFinish));
    }
    ClaimedByCleaner(s, p);
    TokenRule(s, s', a, p, s'.procs[p].token, On(p, ToFinish));
  }

  lemma NotifyKeeps(s: State, c: Cpu, outcome: Try, jobRoom: bool)
    requires Inv(s) && HandlerEnabled(s, c, Notify(outcome, jobRoom))
    ensures Inv(DoNotify(s, c, outcome, jobRoom))
  {
    var On(p, ToNotify(pp, code)) := PcOf(s, Cleaner(c));
    var n := Note(pp, p, code);
    if outcome.Delivered? {
      HandKeeps(s, c, Enqueue(s, WaitPort(pp), n));
    } else if outcome.Closed? {
      HandKeeps(s, c, Lose(s, n));
    } else if outcome.Again? && jobRoom {
      HandKeeps(s, c, Enqueue(s, ParkedJobs(c), n));
    } else {
      InvFocus(s, Cleaner(c), p);
      MoveRule(s, c, p, On(p, ToFindParent(pp, code)));
    }
  }

  lemma FindParentKeeps(s: State, c: Cpu)
    requires Inv(s) && HandlerEnabled(s, c, FindParent)
    ensures Inv(DoFindParent(s, c))
  {
    var On(p, ToFindParent(pp, code)) := PcOf(s, Cleaner(c));
    if Found(s, pp) {
      InvFocus(s, Cleaner(c), p);
      MoveRule(s, c, p, On(p, ToPush(pp, code)));
    } else {
      HandKeeps(s, c, Lose(s, Note(pp, p, code)));
    }
  }

  lemma PushPendingKeeps(s: State, c: Cpu, entryRoom: bool)
    requires Inv(s) && HandlerEnabled(s, c, PushPending(entryRoom))
    ensures Inv(DoPushPending(s, c, entryRoom))
  {
    var On(p, ToPush(pp, code)) := PcOf(s, Cleaner(c));
    HandKeeps(s, c, Push(s, Note(pp, p, code), entryRoom));
  }

  // The poll position of a listener is its own.
  lemma SetPollKeeps(s: State, c: Cpu, poll: Polling)
    requires Inv(s)
    ensures Inv(SetPoll(s, c, poll))
  {
    UnfoldInv(s);
    var s' := SetPoll(s, c, poll);
    forall a ensures PcOk(s', a) { assert PcOk(s, a); }
    forall h ensures MailOk(s', h) { assert MailOk(s, h); }
    forall p | p in s'.procs ensures ParentOk(s', p) && MembersOk(s', p) && ReaperOk(s', p) && RefsOk(s', p) {
      assert ParentOk(s, p) && MembersOk(s, p) && ReaperOk(s, p) && RefsOk(s, p);
      PollRefs(s, s', p);
    }
    forall t | t in s'.threads ensures ThreadOk(s', t) { assert ThreadOk(s, t); }
    FoldInv(s');
  }

  lemma PollRefs(s: State, s': State, p: Pid)
    requires p in s.procs && RefsOk(s, p) && s' == s.(polls := s'.polls)
    ensures RefsOk(s', p)
  {
    forall r ensures HoldsRef(s', p, r) <==> HoldsRef(s, p, r) { }
    RefsEqual(s, s', p);
  }

  // A parked job leaves the list: its notification is delivered, stored or lost.
  lemma UnparkKeeps(s: State, c: Cpu, i: nat, s': State)
    requires Inv(s) && i < |Mail(s, ParkedJobs(c))| && Mail(s, ParkedJobs(c))[i].child in s.procs
    requires var n := Mail(s, ParkedJobs(c))[i];
             var s0 := Taken(s, ParkedJobs(c), i);
             s' == Lose(s0, n) || s' == Enqueue(s0, WaitPort(n.ppid), n) || s' == Enqueue(s0, Pending(n.ppid), n)
    ensures Inv(s')
  {
    var a, n := Cleaner(c), Mail(s, ParkedJobs(c))[i];
    var p := n.child;
    InvFocus(s, a, p);
    assert AllMail(s') && NoteOk(s, n, ParkedJobs(c)) by {
      assert Holds(Letters, s);
      UnparkMail(s, c, i);
      assert MailOk(s, ParkedJobs(c));
    }
    ClaimedByCleaner(s, p);
    TokenRule(s, s', a, p, s'.procs[p].token, PcOf(s, a));
  }

  lemma UnparkMail(s: State, c: Cpu, i: nat)
    requires AllMail(s) && i < |Mail(s, ParkedJobs(c))| && Mail(s, ParkedJobs(c))[i].child in s.procs
    ensures var n := Mail(s, ParkedJobs(c))[i];
            var s0 := Taken(s, ParkedJobs(c), i);
            AllMail(Lose(s0, n)) && AllMail(Enqueue(s0, WaitPort(n.ppid), n))
                && AllMail(Enqueue(s0, Pending(n.ppid), n))
  {
    var h := ParkedJobs(c);
    var n := Mail(s, h)[i];
    assert MailOk(s, h);
    var s0 := Taken(s, h, i);
    var s1 := Lose(s0, n);
    MailTake(s, h, i, Consumed);
    MailGain(s1, WaitPort(n.ppid), n);
    MailGain(s1, Pending(n.ppid), n);
    SetTokenTwice(s0, n.child);
    assert Enqueue(s1, WaitPort(n.ppid), n) == Enqueue(s0, WaitPort(n.ppid), n);
    assert Enqueue(s1, Pending(n.ppid), n) == Enqueue(s0, Pending(n.ppid), n);
  }

  lemma SetTokenTwice(s: State, c: Pid)
    requires c in s.procs
    ensures forall j, k :: SetToken(SetToken(s, c, j), c, k) == SetToken(s, c, k)
  {
    forall j, k ensures SetToken(SetToken(s, c, j), c, k) == SetToken(s, c, k) {
      var x := s.procs[c];
      assert s.procs[c := x.(token := j)][c := x.(token := k)] == s.procs[c := x.(token := k)];
    }
  }

  lemma PollKeeps(s: State, c: Cpu, step: HandlerStep)
    requires Inv(s) && HandlerEnabled(s, c, step)
    requires step.PollFind? || step.PollPost? || step.PollFindParent? || step.PollPush?
    ensures Inv(ApplyHandler(s, c, step))
  {
    var s' := ApplyHandler(s, c, step);
    var i := if step.PollFind? then step.i else PollOf(s, c).i;
    var n := Mail(s, ParkedJobs(c))[i];
    if s' == SetPoll(s, c, PollOf(s', c)) {
      SetPollKeeps(s, c, PollOf(s', c));
    } else {
      UnparkedKeeps(s, c, i, s');
    }
  }

  lemma UnparkedKeeps(s: State, c: Cpu, i: nat, s': State)
    requires Inv(s) && i < |Mail(s, ParkedJobs(c))| && Mail(s, ParkedJobs(c))[i].child in s.procs
    requires var n, s1 := Mail(s, ParkedJobs(c))[i], Unpark(s, c, i);
             s' == Lose(s1, n) || s' == Enqueue(s1, WaitPort(n.ppid), n) || s' == Enqueue(s1, Pending(n.ppid), n)
    ensures Inv(s')
  {
    var s0 := SetPoll(s, c, NoPoll);
    SetPollKeeps(s, c, NoPoll);
    assert Mail(s0, ParkedJobs(c)) == Mail(s, ParkedJobs(c)) && Unpark(s, c, i) == Taken(s0, ParkedJobs(c), i);
    UnparkKeeps(s0, c, i, s');
  }

  // A notification on the desk of a live parent belongs to an unclaimed child.
  lemma MailedChildNotified(s: State, t: Tid, n: Note, h: Holder)
    requires Inv(s) && OwnThread(s, t) && NoteOk(s, n, h) && !h.Hand? && n.ppid == s.threads[t].res.value
    ensures s.procs[n.child].exitState == Notified
  {
    UnfoldInv(s);
    AttachedRegistered(s, t);
    assert RecordOk(s.procs[n.child]) && ParentOk(s, n.child);
  }

  lemma GraspKeeps(s: State, t: Tid, h: Holder, i: nat)
    requires Inv(s) && Runnable(s, t) && (h == Pending(s.threads[t].res.value) || h == WaitPort(s.threads[t].res.value))
    requires i < |Mail(s, h)| && Mail(s, h)[i].child in s.procs
    ensures Inv(SetToken(Goto(Taken(s, h, i), Waiter(t), InHand(Mail(s, h)[i])), Mail(s, h)[i].child,
            LiveAt(Hand(Waiter(t)))))
  {
    var a, n := Waiter(t), Mail(s, h)[i];
    var k := LiveAt(Hand(a));
    var s1 := SetToken(Taken(s, h, i), n.child, k);
    var s' := SetToken(Goto(Taken(s, h, i), a, InHand(n)), n.child, k);
    InvFocus(s, a, n.child);
    assert AllMail(s') && NoteOk(s, n, h) && Addressed(h, n) by {
      assert Holds(Letters, s);
      assert MailOk(s, h);
      MailTake(s, h, i, k);
      MailMove(s1, a, InHand(n));
      assert s' == Goto(s1, a, InHand(n));
    }
    MailedChildNotified(s, t, n, h);
    ClaimedByCleaner(s, n.child);
    TokenRule(s, s', a, n.child, k, InHand(n));
  }

  lemma StashKeeps(s: State, t: Tid, entryRoom: bool)
    requires Inv(s) && WaitEnabled(s, t, Stash(entryRoom))
    ensures Inv(DoStash(s, t, entryRoom))
  {
    var a, n := Waiter(t), PcOf(s, Waiter(t)).note;
    var s', pp := DoStash(s, t, entryRoom), s.threads[t].res.value;
    InvFocus(s, a, n.child);
    assert AllMail(s') by {
      assert Holds(Letters, s);
      MailLost(s, n.child);
      MailGain(s, Pending(pp), n);
      MailMove(Lose(s, n), a, Idle);
      MailMove(Enqueue(s, Pending(pp), n), a, Idle);
    }
    TokenRule(s, s', a, n.child, s'.procs[n.child].token, Idle);
  }
}

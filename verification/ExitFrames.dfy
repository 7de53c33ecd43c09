/**
 What a step of one agent on one process leaves alone.
 */
module ExitFrames {
  import opened Wrappers
  import opened ExitProtocol
  import opened ExitInvariant

  // Changes of a process record that no other agent can notice.
  ghost predicate Evolves(a: Agent, x: Proc, y: Proc) {
    && y.creator == x.creator
    && (y.registered ==> x.registered)
    && (x.ppid == 0 ==> y.ppid == 0) && (y.ppid == 0 || y.ppid == x.ppid)
    && (!x.reap.Unclaimed? ==> !y.reap.Unclaimed?)
    && (x.exitState != Running ==> y.exitState != Running)
    && (x.threads == {} ==> y.threads == {} && y.exitCode == x.exitCode)
    && (x.exitLastThread && x.threads == {} ==> y.exitLastThread)
    && (x.token.LiveAt? && x.token.holder.Hand? && x.token.holder.agent != a ==> y.token == x.token)
    && ((x.reap.MustFini? || x.reap.MustPut?) && x.reap.agent != a ==> y.reap == x.reap)
  }

  // Agent b is about to adopt p as a child of the process it reaps.
  ghost predicate Adopts(s: State, b: Agent, p: Pid) {
    PcOf(s, b).On? && PcOf(s, b).todo == ToAdopt(p) && p in s.procs && s.procs[p].ppid == PcOf(s, b).p
  }

  // A claim takes the process away from no other waiter and from no adoption.
  ghost predicate ClaimsAlone(s: State, a: Agent, p: Pid, y: Proc)
    requires p in s.procs
  {
    && (s.procs[p].exitState == Notified && y.exitState != Notified ==> forall b :: b != a ==> !WaiterOn(s, b, p))
    && (s.procs[p].reap.Unclaimed? && !y.reap.Unclaimed? ==> forall b :: b != a ==> !Adopts(s, b, p))
  }

  // s' differs from s in process p, in the position of agent a and in threads
  // that neither wait nor belong to another handler.
  ghost predicate Shape(s: State, s': State, a: Agent, p: Pid) {
    && (forall q :: q in s.procs ==> q in s'.procs)
    && (forall q :: q in s'.procs && q != p ==> q in s.procs && s'.procs[q] == s.procs[q])
    && (p in s.procs ==> Evolves(a, s.procs[p], s'.procs[p]) && ClaimsAlone(s, a, p, s'.procs[p]))
    && (forall b :: b != a ==> PcOf(s', b) == PcOf(s, b))
    && (forall t :: t in s.threads ==> t in s'.threads)
    && (forall t :: t in s.threads ==>
          || s'.threads[t] == s.threads[t]
          || (PcOf(s, Waiter(t)).Idle? && (s.threads[t].phase.Reaping? ==> Cleaner(s.threads[t].phase.cpu) == a)))
    && (forall t :: t in s.threads && s.threads[t].res != Some(p) ==> s'.threads[t].res == s.threads[t].res)
  }

  ghost predicate Only(pc: Pc, p: Pid) {
    pc.On? ==> pc.p == p
  }

  // Agent a works on p, or its own position does not change.
  ghost predicate PcShape(s: State, s': State, a: Agent, p: Pid) {
    PcOf(s', a) == PcOf(s, a) || (Only(PcOf(s, a), p) && Only(PcOf(s', a), p))
  }

  lemma OtherParents(s: State, s': State, a: Agent, p: Pid)
    requires AllParents(s)
    requires Shape(s, s', a, p)
    ensures forall q :: q in s.procs && ParentGone(s, q) ==> ParentGone(s', q)
    ensures forall q :: q in s'.procs && q != p ==> ParentOk(s', q)
  {
    forall q | q in s.procs ensures ParentGone(s, q) ==> ParentGone(s', q) {
      assert ParentOk(s, q);
      OtherGone(s, s', a, p, q);
    }
    forall q | q in s'.procs && q != p ensures ParentOk(s', q) {
      assert ParentOk(s, q);
      OtherGone(s, s', a, p, q);
    }
  }

  lemma OtherGone(s: State, s': State, a: Agent, p: Pid, q: Pid)
    requires Shape(s, s', a, p) && q in s.procs && ParentOk(s, q)
    ensures q in s'.procs
    ensures ParentGone(s, q) ==> ParentGone(s', q)
    ensures Abandoned(s, q) ==> Abandoned(s', q)
  {
    ShapeAt(s, s', a, p, q);
    var c := s.procs[q].creator;
    if c in s.procs {
      ShapeAt(s, s', a, p, c);
    }
  }

  lemma ShapeAt(s: State, s': State, a: Agent, p: Pid, q: Pid)
    requires Shape(s, s', a, p) && q in s.procs
    ensures q in s'.procs && Evolves(a, s.procs[q], s'.procs[q])
  {
  }

  lemma OtherWaiter(s: State, s': State, a: Agent, p: Pid, b: Agent, q: Pid)
    requires Shape(s, s', a, p) && b != a
    requires WaiterOn(s, b, q) && !PcOf(s, b).Idle?
    ensures WaiterOn(s', b, q)
    ensures s.procs[q].exitState == Notified ==> s'.procs[q].exitState == Notified
  {
    ShapeAt(s, s', a, p, q);
  }

  lemma OtherNote(s: State, s': State, a: Agent, p: Pid, b: Agent, n: Note)
    requires Shape(s, s', a, p) && b != a
    requires NoteOk(s, n, Hand(b)) && RecordOk(s.procs[n.child])
    ensures NoteOk(s', n, Hand(b))
  {
    ShapeAt(s, s', a, p, n.child);
  }

  lemma OtherAdopts(s: State, s': State, a: Agent, p: Pid, b: Agent, q: Pid, k: Pid)
    requires Shape(s, s', a, p) && b != a && PcOf(s, b) == On(q, ToAdopt(k)) && AdoptOk(s, q, k) && q > 0
    ensures AdoptOk(s', q, k)
  {
    ShapeAt(s, s', a, p, k);
    if s'.procs[k].ppid == q {
      assert s.procs[k].ppid == q;
      assert Adopts(s, b, k);
    }
  }

  lemma OtherHandler(s: State, s': State, a: Agent, p: Pid, b: Agent)
    requires Shape(s, s', a, p) && AllRecords(s) && b.Cleaner? && b != a && PcOk(s, b) && PcOf(s, b).On?
    requires forall q :: q in s.procs && ParentGone(s, q) ==> ParentGone(s', q)
    requires PcOf(s, b).p > 0
    ensures PcOk(s', b)
  {
    var On(q, todo) := PcOf(s, b);
    assert PcOf(s', b) == PcOf(s, b);
    ShapeAt(s, s', a, p, q);
    if todo.ToNotify? || todo.ToFindParent? || todo.ToPush? {
      OtherNote(s, s', a, p, b, Note(todo.parent, q, todo.code));
    } else if todo.ToAdopt? {
      OtherAdopts(s, s', a, p, b, q, todo.candidate);
    }
  }

  lemma OtherPc(s: State, s': State, a: Agent, p: Pid, b: Agent)
    requires Shape(s, s', a, p)
    requires forall q :: q in s.procs && ParentGone(s, q) ==> ParentGone(s', q)
    requires AllRecords(s) && AllParents(s)
    requires PcOk(s, b) && b != a
    ensures PcOk(s', b)
  {
    var pc := PcOf(s, b);
    assert PcOf(s', b) == pc;
    match pc {
      case On(q, todo) =>
        assert ParentOk(s, q);
        if b.Cleaner? {
          OtherHandler(s, s', a, p, b);
        } else {
          ShapeAt(s, s', a, p, q);
          OtherWaiter(s, s', a, p, b, q);
          if todo.ToAdopt? { OtherAdopts(s, s', a, p, b, q, todo.candidate); }
        }
      case InHand(n) =>
        OtherNote(s, s', a, p, b, n);
        OtherWaiter(s, s', a, p, b, n.child);
      case _ =>
    }
  }

  lemma OtherPcs(s: State, s': State, a: Agent, p: Pid)
    requires Shape(s, s', a, p)
    requires forall q :: q in s.procs && ParentGone(s, q) ==> ParentGone(s', q)
    requires AllRecords(s) && AllParents(s)
    requires AllPcs(s)
    ensures forall b :: b != a ==> PcOk(s', b)
  {
    forall b | b != a ensures PcOk(s', b) { OtherPc(s, s', a, p, b); }
  }

  lemma OtherMembers(s: State, s': State, a: Agent, p: Pid)
    requires AllMembers(s)
    requires Shape(s, s', a, p)
    ensures forall q :: q in s'.procs && q != p ==> MembersOk(s', q)
  {
  }

  lemma OtherReapers(s: State, s': State, a: Agent, p: Pid)
    requires AllReapers(s)
    requires Shape(s, s', a, p) && PcShape(s, s', a, p)
    ensures forall q :: q in s'.procs && q != p ==> ReaperOk(s', q)
  {
    forall q | q in s'.procs && q != p ensures ReaperOk(s', q) {
      assert ReaperOk(s, q);
    }
  }

  lemma RefsMember(s: State, p: Pid, r: Ref)
    requires p in s.procs
    ensures r in Refs(s, p) <==> HoldsRef(s, p, r)
  {
    match r {
      case BaseRef =>
      case ThreadRef(t) =>
      case PinRef(c) =>
        if HoldsRef(s, p, r) {
          assert Cleaner(c) in s.pcs && Handles(s.pcs[Cleaner(c)], p);
          assert PinRef(Cleaner(c).cpu) in PinRefs(s, p);
        }
      case DropRef(c) =>
        if HoldsRef(s, p, r) {
          assert Cleaner(c) in s.pcs && s.pcs[Cleaner(c)] == On(p, ToDrop);
          assert DropRef(Cleaner(c).cpu) in DropRefs(s, p);
        }
    }
  }

  lemma RefsAre(s: State, p: Pid)
    requires p in s.procs
    ensures IsRefs(Refs(s, p), s, p)
  {
    forall r ensures r in Refs(s, p) <==> HoldsRef(s, p, r) { RefsMember(s, p, r); }
  }

  lemma HeldCounts(s: State, p: Pid, r: Ref)
    requires p in s.procs && RefsOk(s, p) && HoldsRef(s, p, r)
    ensures s.procs[p].refcount >= 1
  {
    RefsAre(s, p);
    assert r in Refs(s, p);
  }

  lemma RefsEqual(s: State, s': State, p: Pid)
    requires p in s.procs && p in s'.procs && RefsOk(s, p)
    requires s'.procs[p].refcount == s.procs[p].refcount
    requires forall r :: HoldsRef(s', p, r) <==> HoldsRef(s, p, r)
    ensures RefsOk(s', p)
  {
    forall rs | IsRefs(rs, s', p) ensures s'.procs[p].refcount == |rs| {
      assert IsRefs(rs, s, p);
    }
  }

  lemma RefsGain(s: State, s': State, p: Pid, r0: Ref)
    requires p in s.procs && p in s'.procs && RefsOk(s, p)
    requires s'.procs[p].refcount == s.procs[p].refcount + 1
    requires !HoldsRef(s, p, r0)
    requires forall r :: HoldsRef(s', p, r) <==> HoldsRef(s, p, r) || r == r0
    ensures RefsOk(s', p)
  {
    forall rs | IsRefs(rs, s', p) ensures s'.procs[p].refcount == |rs| {
      assert IsRefs(rs - {r0}, s, p);
      assert r0 in rs;
    }
  }

  lemma RefsDrop(s: State, s': State, p: Pid, r0: Ref)
    requires p in s.procs && p in s'.procs && RefsOk(s, p)
    requires s'.procs[p].refcount == s.procs[p].refcount - 1
    requires HoldsRef(s, p, r0)
    requires forall r :: HoldsRef(s', p, r) <==> HoldsRef(s, p, r) && r != r0
    ensures RefsOk(s', p)
  {
    forall rs | IsRefs(rs, s', p) ensures s'.procs[p].refcount == |rs| {
      assert r0 !in rs;
      assert IsRefs(rs + {r0}, s, p);
    }
  }

  lemma OtherRef(s: State, s': State, a: Agent, p: Pid, q: Pid, r: Ref)
    requires q in s.procs && q in s'.procs && q != p && s'.procs[q] == s.procs[q]
    requires forall b :: b != a ==> PcOf(s', b) == PcOf(s, b)
    requires PcShape(s, s', a, p)
    ensures HoldsRef(s', q, r) <==> HoldsRef(s, q, r)
  {
    match r {
      case PinRef(c) => assert Cleaner(c) != a ==> PcOf(s', Cleaner(c)) == PcOf(s, Cleaner(c));
      case DropRef(c) => assert Cleaner(c) != a ==> PcOf(s', Cleaner(c)) == PcOf(s, Cleaner(c));
      case _ =>
    }
  }

  lemma OtherRefs(s: State, s': State, a: Agent, p: Pid)
    requires AllRefs(s)
    requires Shape(s, s', a, p) && PcShape(s, s', a, p)
    ensures forall q :: q in s'.procs && q != p ==> RefsOk(s', q)
  {
    forall q | q in s'.procs && q != p ensures RefsOk(s', q) {
      assert RefsOk(s, q);
      forall r ensures HoldsRef(s', q, r) <==> HoldsRef(s, q, r) { OtherRef(s, s', a, p, q, r); }
      RefsEqual(s, s', q);
    }
  }

  lemma OtherThread(s: State, s': State, a: Agent, p: Pid, t: Tid)
    requires Shape(s, s', a, p)
    requires t in s.threads && ThreadOk(s, t) && s'.threads[t] == s.threads[t]
    requires s.threads[t].res == Some(p) && p in s.procs ==> t in s'.procs[p].threads
    requires t in s'.reapQueue <==> t in s.reapQueue
    ensures ThreadOk(s', t)
  {
  }

  lemma OtherMail(s: State, s': State, a: Agent, p: Pid, h: Holder)
    requires Shape(s, s', a, p)
    requires AllRecords(s)
    requires MailOk(s, h) && Mail(s', h) == Mail(s, h)
    requires p in s.procs && s.procs[p].token == LiveAt(h) ==> s'.procs[p].token == LiveAt(h)
    ensures MailOk(s', h)
  {
  }

  // Everything about the untouched part at once.
  ghost predicate Frame(s: State, s': State, a: Agent, p: Pid) {
    && p in s.procs && Shape(s, s', a, p) && PcShape(s, s', a, p)
    && s'.reapQueue == s.reapQueue
    && (forall t :: t in s'.threads ==> t in s.threads && s'.threads[t] == s.threads[t])
    && s.procs[p].threads == s'.procs[p].threads
  }

  // The part of Inv that concerns process p and agent a alone.
  ghost predicate Focus(s: State, a: Agent, p: Pid) {
    && p in s.procs
    && RecordOk(s.procs[p]) && ParentOk(s, p) && ReaperOk(s, p)
    && PcOk(s, a)
  }

  lemma OtherThreads(s: State, s': State, a: Agent, p: Pid)
    requires AllThreads(s) && Frame(s, s', a, p)
    ensures AllThreads(s')
  {
    forall t | t in s'.threads ensures ThreadOk(s', t) { OtherThread(s, s', a, p, t); }
  }

  lemma FrameRecords(s: State, s': State, a: Agent, p: Pid)
    requires AllRecords(s) && AllMembers(s) && Frame(s, s', a, p) && RecordOk(s'.procs[p])
    ensures AllRecords(s') && AllMembers(s')
  {
    OtherMembers(s, s', a, p);
    assert MembersOk(s', p) by { assert MembersOk(s, p); }
  }

  lemma FrameParents(s: State, s': State, a: Agent, p: Pid)
    requires AllParents(s) && AllRecords(s) && AllPcs(s) && Frame(s, s', a, p)
    requires ParentOk(s', p) && PcOk(s', a)
    ensures AllParents(s') && AllPcs(s')
  {
    OtherParents(s, s', a, p);
    OtherPcs(s, s', a, p);
  }

  lemma FrameReapers(s: State, s': State, a: Agent, p: Pid)
    requires AllReapers(s) && AllRefs(s) && Frame(s, s', a, p)
    requires ReaperOk(s', p) && RefsOk(s', p)
    ensures AllReapers(s') && AllRefs(s')
  {
    OtherReapers(s, s', a, p);
    OtherRefs(s, s', a, p);
  }

  // A step that keeps threads and the reap queue keeps the invariant when it
  // keeps its own process, its own position and the mail.
  lemma FrameRule(s: State, s': State, a: Agent, p: Pid)
    requires Inv(s) && Frame(s, s', a, p)
    requires Focus(s', a, p) && RefsOk(s', p)
    requires AllMail(s')
    ensures Inv(s')
  {
    UnfoldInv(s);
    FrameRecords(s, s', a, p);
    FrameParents(s, s', a, p);
    FrameReapers(s, s', a, p);
    OtherThreads(s, s', a, p);
    FoldInv(s');
  }

  lemma FrameMail(s: State, s': State, a: Agent, p: Pid)
    requires AllMail(s) && AllRecords(s) && Shape(s, s', a, p) && s'.mail == s.mail
    requires p in s.procs && s.procs[p].token.LiveAt? && !s.procs[p].token.holder.Hand? ==>
             s'.procs[p].token == s.procs[p].token
    ensures AllMail(s')
  {
    forall h ensures MailOk(s', h) {
      assert MailOk(s, h);
      if !h.Hand? { OtherMail(s, s', a, p, h); }
    }
  }

  lemma InvFocus(s: State, a: Agent, p: Pid)
    requires Inv(s) && p in s.procs
    ensures Focus(s, a, p) && RefsOk(s, p)
  {
    UnfoldInv(s);
  }

  lemma QuietMail(s: State, s': State, a: Agent, p: Pid)
    requires Inv(s) && Shape(s, s', a, p) && p in s.procs && s'.mail == s.mail
    requires s.procs[p].token.LiveAt? && !s.procs[p].token.holder.Hand? ==> s'.procs[p].token == s.procs[p].token
    ensures AllMail(s')
  {
    UnfoldInv(s);
    FrameMail(s, s', a, p);
  }

  // FrameRule for steps that leave the mail alone.
  lemma QuietRule(s: State, s': State, a: Agent, p: Pid)
    requires Inv(s) && Frame(s, s', a, p) && Focus(s', a, p) && RefsOk(s', p)
    requires s'.mail == s.mail
    requires s.procs[p].token.LiveAt? && !s.procs[p].token.holder.Hand? ==> s'.procs[p].token == s.procs[p].token
    ensures Inv(s')
  {
    QuietMail(s, s', a, p);
    FrameRule(s, s', a, p);
  }

  // Position changes that keep every reference.
  lemma SameRefs(s: State, s': State, a: Agent, p: Pid)
    requires p in s.procs && p in s'.procs && RefsOk(s, p)
    requires s'.procs[p].threads == s.procs[p].threads && s'.procs[p].refcount == s.procs[p].refcount
    requires s'.procs[p].reap.Reaped? == s.procs[p].reap.Reaped?
    requires forall b :: b != a ==> PcOf(s', b) == PcOf(s, b)
    requires a.Cleaner? ==> HoldsRef(s', p, PinRef(a.cpu)) == HoldsRef(s, p, PinRef(a.cpu))
    requires a.Cleaner? ==> HoldsRef(s', p, DropRef(a.cpu)) == HoldsRef(s, p, DropRef(a.cpu))
    ensures RefsOk(s', p)
  {
    forall r ensures HoldsRef(s', p, r) <==> HoldsRef(s, p, r) {
      match r {
        case PinRef(c) => assert Cleaner(c) != a ==> PcOf(s', Cleaner(c)) == PcOf(s, Cleaner(c));
        case DropRef(c) => assert Cleaner(c) != a ==> PcOf(s', Cleaner(c)) == PcOf(s, Cleaner(c));
        case _ =>
      }
    }
    RefsEqual(s, s', p);
  }

  // Agent a gives up reference r0 on p.
  lemma LessRefs(s: State, s': State, a: Agent, p: Pid, r0: Ref)
    requires p in s.procs && p in s'.procs && RefsOk(s, p)
    requires s'.procs[p].threads == s.procs[p].threads
    requires s'.procs[p].refcount == s.procs[p].refcount - 1
    requires forall b :: b != a ==> PcOf(s', b) == PcOf(s, b)
    requires HoldsRef(s, p, r0) && !HoldsRef(s', p, r0)
    requires r0 != BaseRef ==> s'.procs[p].reap.Reaped? == s.procs[p].reap.Reaped?
    requires a.Cleaner? && r0 != PinRef(a.cpu) ==> (HoldsRef(s', p, PinRef(a.cpu)) <==> HoldsRef(s, p, PinRef(a.cpu)))
    requires a.Cleaner? && r0 != DropRef(a.cpu) ==>
             (HoldsRef(s', p, DropRef(a.cpu)) <==> HoldsRef(s, p, DropRef(a.cpu)))
    ensures RefsOk(s', p) && s.procs[p].refcount >= 1
  {
    forall r ensures HoldsRef(s', p, r) <==> HoldsRef(s, p, r) && r != r0 {
      match r {
        case PinRef(c) => assert Cleaner(c) != a ==> PcOf(s', Cleaner(c)) == PcOf(s, Cleaner(c));
        case DropRef(c) => assert Cleaner(c) != a ==> PcOf(s', Cleaner(c)) == PcOf(s, Cleaner(c));
        case _ =>
      }
    }
    RefsDrop(s, s', p, r0);
    HeldCounts(s, p, r0);
  }

  // Agent a replaces the record of p by y and moves to pc.
  function Local(s: State, a: Agent, p: Pid, y: Proc, pc: Pc): State {
    Goto(SetProc(s, p, y), a, pc)
  }

  ghost predicate LocalChange(s: State, a: Agent, p: Pid, y: Proc, pc: Pc) {
    && p in s.procs && y.threads == s.procs[p].threads
    && Evolves(a, s.procs[p], y) && ClaimsAlone(s, a, p, y)
    && Only(PcOf(s, a), p) && Only(pc, p)
    && (s.procs[p].token.LiveAt? && !s.procs[p].token.holder.Hand? ==> y.token == s.procs[p].token)
  }

  lemma LocalFrame(s: State, a: Agent, p: Pid, y: Proc, pc: Pc)
    requires LocalChange(s, a, p, y, pc)
    ensures Frame(s, Local(s, a, p, y, pc), a, p)
  {
  }

  lemma LocalRule(s: State, a: Agent, p: Pid, y: Proc, pc: Pc)
    requires Inv(s) && LocalChange(s, a, p, y, pc)
    requires Focus(Local(s, a, p, y, pc), a, p) && RefsOk(Local(s, a, p, y, pc), p)
    ensures Inv(Local(s, a, p, y, pc))
  {
    LocalFrame(s, a, p, y, pc);
    QuietRule(s, Local(s, a, p, y, pc), a, p);
  }

  lemma LocalParents(s: State, a: Agent, p: Pid, y: Proc, pc: Pc)
    requires p in s.procs && ParentOk(s, p)
    requires y.creator == s.procs[p].creator && (y.registered ==> s.procs[p].registered) && y.ppid == s.procs[p].ppid
    requires !s.procs[p].reap.Unclaimed? ==> !y.reap.Unclaimed?
    ensures ParentGone(s, p) ==> ParentGone(Local(s, a, p, y, pc), p)
    ensures y.reap.Unclaimed? || y.reap.agent.Waiter? || ParentGone(s, p) || y.reap == s.procs[p].reap ==>
              ParentOk(Local(s, a, p, y, pc), p)
  {
  }

  lemma MoveOnly(s: State, a: Agent, p: Pid, pc: Pc)
    requires p in s.procs
    ensures Local(s, a, p, s.procs[p], pc) == Goto(s, a, pc)
  {
    assert s.procs[p := s.procs[p]] == s.procs;
  }

  lemma LocalSameRefs(s: State, a: Agent, p: Pid, y: Proc, pc: Pc)
    requires p in s.procs && RefsOk(s, p)
    requires y.threads == s.procs[p].threads && y.refcount == s.procs[p].refcount
    requires y.reap.Reaped? == s.procs[p].reap.Reaped?
    requires a.Cleaner? ==> Handles(PcOf(s, a), p) == Handles(pc, p)
    requires a.Cleaner? ==> (PcOf(s, a) == On(p, ToDrop) <==> pc == On(p, ToDrop))
    ensures RefsOk(Local(s, a, p, y, pc), p)
  {
    SameRefs(s, Local(s, a, p, y, pc), a, p);
  }

  // The handler on CPU c gains its own reference.
  lemma LocalPinRefs(s: State, c: Cpu, p: Pid, y: Proc, pc: Pc)
    requires p in s.procs && RefsOk(s, p)
    requires y.threads == s.procs[p].threads && y.refcount == s.procs[p].refcount + 1
    requires y.reap.Reaped? == s.procs[p].reap.Reaped?
    requires !Handles(PcOf(s, Cleaner(c)), p) && Handles(pc, p) && pc.todo != ToDrop
    ensures RefsOk(Local(s, Cleaner(c), p, y, pc), p)
  {
    var s', a := Local(s, Cleaner(c), p, y, pc), Cleaner(c);
    forall r ensures HoldsRef(s', p, r) <==> HoldsRef(s, p, r) || r == PinRef(c) {
      match r {
        case PinRef(d) => assert Cleaner(d) != a ==> PcOf(s', Cleaner(d)) == PcOf(s, Cleaner(d));
        case DropRef(d) => assert Cleaner(d) != a ==> PcOf(s', Cleaner(d)) == PcOf(s, Cleaner(d));
        case _ =>
      }
    }
    RefsGain(s, s', p, PinRef(c));
  }

  // The handler on CPU c drops the reference of the thread it detached.
  lemma LocalDropRefs(s: State, c: Cpu, p: Pid, y: Proc, pc: Pc)
    requires p in s.procs && RefsOk(s, p)
    requires y.threads == s.procs[p].threads && y.refcount == s.procs[p].refcount - 1
    requires y.reap.Reaped? == s.procs[p].reap.Reaped?
    requires PcOf(s, Cleaner(c)) == On(p, ToDrop) && Handles(pc, p) && pc.todo != ToDrop
    ensures RefsOk(Local(s, Cleaner(c), p, y, pc), p) && s.procs[p].refcount >= 1
  {
    LessRefs(s, Local(s, Cleaner(c), p, y, pc), Cleaner(c), p, DropRef(c));
  }

  // The handler on CPU c drops its own reference.
  lemma LocalUnpinRefs(s: State, c: Cpu, p: Pid, y: Proc)
    requires p in s.procs && RefsOk(s, p)
    requires y.threads == s.procs[p].threads && y.refcount == s.procs[p].refcount - 1
    requires y.reap.Reaped? == s.procs[p].reap.Reaped?
    requires Handles(PcOf(s, Cleaner(c)), p) && PcOf(s, Cleaner(c)).todo != ToDrop
    ensures RefsOk(Local(s, Cleaner(c), p, y, Idle), p) && s.procs[p].refcount >= 1
  {
    LessRefs(s, Local(s, Cleaner(c), p, y, Idle), Cleaner(c), p, PinRef(c));
  }

  // Agent a drops the base reference.
  lemma LocalBaseRefs(s: State, a: Agent, p: Pid, y: Proc, pc: Pc)
    requires p in s.procs && RefsOk(s, p)
    requires y.threads == s.procs[p].threads && y.refcount == s.procs[p].refcount - 1
    requires y.reap.Reaped? && !s.procs[p].reap.Reaped?
    requires a.Cleaner? ==> Handles(PcOf(s, a), p) && Handles(pc, p) && PcOf(s, a).todo != ToDrop && pc.todo != ToDrop
    ensures RefsOk(Local(s, a, p, y, pc), p) && s.procs[p].refcount >= 1
  {
    LessRefs(s, Local(s, a, p, y, pc), a, p, BaseRef);
  }
}

/**
 The list of exits a parent has not waited for yet, edited in place by the loops
 that walk it.
 */
module ExitLists {
  import opened Wrappers
  import opened ExitProtocol
  import opened ExitInvariant
  import opened ExitTheorems

  // The first note that matches, if any
  ghost predicate FirstMatch(notes: seq<Note>, i: nat, wanted: Note -> bool) {
    i < |notes| && wanted(notes[i]) && forall j :: 0 <= j < i ==> !wanted(notes[j])
  }

  // The list after a push that finds memory for an entry or not
  function Pushed(notes: seq<Note>, n: Note, room: bool): seq<Note> {
    if room && n.child > 0 then notes + [n] else notes
  }

  class PendingExits {
    var notes: seq<Note>

    constructor ()
      ensures notes == []
    {
      notes := [];
    }

    // linux_proc_wait_pending_push
    method Push(n: Note, room: bool) returns (ok: bool)
      modifies this
      ensures notes == Pushed(old(notes), n, room) && (ok <==> notes != old(notes))
    {
      ok := room && n.child > 0;
      if ok {
        notes := notes + [n];
        assert |notes| == |old(notes)| + 1;
      }
    }

    // linux_proc_wait_pending_take: the first note that matches leaves the list
    // and every other keeps its place, so a take is the step TakePending(i) of
    // the protocol for the index it reports.
    method Take(wanted: Note -> bool) returns (taken: Option<Note>, ghost i: nat)
      modifies this
      ensures taken.None? ==> notes == old(notes) && forall j :: 0 <= j < |notes| ==> !wanted(notes[j])
      ensures taken.Some? ==>
                FirstMatch(old(notes), i, wanted) && taken.value == old(notes)[i] && notes == Remove(old(notes), i)
    {
      var k := 0;
      while k < |notes|
        invariant k <= |notes| && notes == old(notes) && forall j :: 0 <= j < k ==> !wanted(notes[j])
      {
        if wanted(notes[k]) {
          var n := notes[k];
          notes := notes[..k] + notes[k + 1..];
          return Some(n), k;
        }
        k := k + 1;
      }
      return None, 0;
    }

    // linux_proc_wait_pending_drain
    method Drain()
      modifies this
      ensures notes == []
    {
      while notes != []
        decreases |notes|
      {
        notes := notes[1..];
      }
    }
  }

  // The three calls of linux_proc_wait_pending_push: whose list, which note, and
  // whether there is memory
  function PushOf(s: State, step: Step): Option<(Pid, Note, bool)>
    requires Enabled(s, step)
  {
    match step
    case ByHandler(c, PushPending(room)) =>
      var On(p, ToPush(pp, code)) := PcOf(s, Cleaner(c));
      Some((pp, Note(pp, p, code), room))
    case ByHandler(c, PollPush(room)) =>
      var n := Mail(s, ParkedJobs(c))[PollOf(s, c).i];
      Some((n.ppid, n, room))
    case ByWaiter(t, Stash(room)) => Some((s.threads[t].res.value, PcOf(s, Waiter(t)).note, room))
    case _ => None
  }

  lemma PushedNote(run: seq<State>, steps: seq<Step>, i: nat, step: Step)
    requires IsRun(run, steps) && i <= |steps| && Enabled(run[i], step) && PushOf(run[i], step).Some?
    ensures var (pp, n, room) := PushOf(run[i], step).value; n.child > 0 && n.ppid == pp
  {
    var s := run[i];
    RunKeeps(run, steps, i);
    assert Holds(Positions, s) && Holds(Letters, s) && Holds(Parents, s);
    match step {
      case ByHandler(c, PushPending(_)) => assert PcOk(s, Cleaner(c));
      case ByHandler(c, PollPush(_)) => assert MailOk(s, ParkedJobs(c));
      case ByWaiter(t, Stash(_)) => assert PcOk(s, Waiter(t));
    }
    assert ParentOk(s, PushOf(s, step).value.1.child);
  }

  lemma HandlerPush(s: State, c: Cpu, room: bool, q: Pid)
    requires HandlerEnabled(s, c, PushPending(room)) && PcOf(s, Cleaner(c)).p > 0
    ensures var (pp, n, _) := PushOf(s, ByHandler(c, PushPending(room))).value;
            Mail(DoPushPending(s, c, room), Pending(q)) ==
            if q == pp then Pushed(Mail(s, Pending(q)), n, room) else Mail(s, Pending(q))
  {
  }

  lemma JobPush(s: State, c: Cpu, room: bool, q: Pid)
    requires HandlerEnabled(s, c, PollPush(room)) && Mail(s, ParkedJobs(c))[PollOf(s, c).i].child > 0
    ensures var (pp, n, _) := PushOf(s, ByHandler(c, PollPush(room))).value;
            Mail(DoPollPush(s, c, room), Pending(q)) ==
            if q == pp then Pushed(Mail(s, Pending(q)), n, room) else Mail(s, Pending(q))
  {
  }

  lemma StashPush(s: State, t: Tid, room: bool, q: Pid)
    requires WaitEnabled(s, t, Stash(room)) && PcOf(s, Waiter(t)).note.child > 0
    ensures var (pp, n, _) := PushOf(s, ByWaiter(t, Stash(room))).value;
            Mail(DoStash(s, t, room), Pending(q)) ==
            if q == pp then Pushed(Mail(s, Pending(q)), n, room) else Mail(s, Pending(q))
  {
  }

  // Each of them is that push on the list of the parent and on no other, and its note
  // is refused only for want of memory, in every reachable state.
  lemma PushIsStep(run: seq<State>, steps: seq<Step>, i: nat, step: Step, q: Pid)
    requires IsRun(run, steps) && i <= |steps| && Enabled(run[i], step) && PushOf(run[i], step).Some?
    ensures var (pp, n, room) := PushOf(run[i], step).value;
            && n.child > 0 && n.ppid == pp
            && Mail(Apply(run[i], step), Pending(q)) ==
               (if q == pp then Pushed(Mail(run[i], Pending(q)), n, room) else Mail(run[i], Pending(q)))
  {
    PushedNote(run, steps, i, step);
    match step {
      case ByHandler(c, PushPending(room)) => HandlerPush(run[i], c, room, q);
      case ByHandler(c, PollPush(room)) => JobPush(run[i], c, room, q);
      case ByWaiter(t, Stash(room)) => StashPush(run[i], t, room, q);
    }
  }
}

/**
 The file server as a whole: the queue of jobs, the tree of names and the context
 of every job, over all runs.
 */
module VfsServer {
  import opened Common
  import opened Wrappers
  import opened VfsJobs
  import opened VfsTheorems
  import NM = NamespaceModel
  import NP = NamespaceProofs
  import NT = NamespaceTheorems
  import CM = CoopModel
  import CP = CoopProofs
  import CT = CoopTheorems

  type Id = CM.Id

  datatype Server = Server(
    q: CM.Queue,
    tree: NM.Tree,
    ctxs: map<Id, Ctx>,   // job->cookie, kept when the job has ended
    changed: set<Id>)     // history: the jobs that have changed the tree

  const BOOTED := Server(CM.EMPTY, NT.INITIAL, map[], {})

  // A request, the reply to a nested request, or a round of polling
  datatype Event =
    | Ask(port: Port, req: Request, env: Env)
    | Tell(cookie: nat, nested: int, env: Env)
    | Poll

  // The job a reply is for
  function Addressee(s: Server, cookie: nat): Option<Id> {
    var w := CM.Waiting(s.q, s.q.order, cookie);
    if w.Some? && w.value in s.ctxs then w else None
  }

  // A reply that no job waits for is dropped, so its program does not matter.
  const NOTHING := CM.Finish(0, CM.Return(CM.Handled(0)))

  // What the queue sees of an event
  function Seen(s: Server, e: Event): CM.Event {
    match e
    case Ask(port, req, env) => CM.Arrive(port, Start(s.tree, env, req).prog)
    case Tell(cookie, nested, env) =>
      (match Addressee(s, cookie)
       case None => CM.NestReply(cookie, NOTHING)
       case Some(id) => CM.NestReply(cookie, Resume(s.tree, env, s.ctxs[id], nested).prog))
    case Poll => CM.PollNow
  }

  function Changed(s: Server, id: Id, out: Out): Server {
    s.(tree := out.tree, ctxs := s.ctxs[id := out.ctx],
       changed := if out.tree != s.tree then s.changed + {id} else s.changed)
  }

  function Step(s: Server, o: CM.Oracle, e: Event): Server {
    var s1 :=
      match e
      case Ask(port, req, env) => Changed(s, |s.q.asked|, Start(s.tree, env, req))
      case Tell(cookie, nested, env) =>
        (match Addressee(s, cookie)
         case None => s
         case Some(id) => Changed(s, id, Resume(s.tree, env, s.ctxs[id], nested)))
      case Poll => s;
    s1.(q := CM.Handle(s.q, o, Seen(s, e)))
  }

  function Run(s: Server, o: CM.Oracle, events: seq<Event>): Server
    decreases |events|
  {
    if events == [] then s else Run(Step(s, o, events[0]), o, events[1..])
  }

  // The events of a run as the queue sees them
  function Trace(s: Server, o: CM.Oracle, events: seq<Event>): seq<CM.Event>
    decreases |events|
  {
    if events == [] then [] else [Seen(s, events[0])] + Trace(Step(s, o, events[0]), o, events[1..])
  }

  // A new request is at no step yet.
  predicate Wellformed(events: seq<Event>) {
    forall i :: 0 <= i < |events| && events[i].Ask? && events[i].req.Job? ==> events[i].req.ctx.step == Begin
  }

  // ---- invariants

  // Every parked job has a context its next step can rely on, and if it has
  // changed the tree it is an open with O_CREAT.
  ghost predicate Kept(s: Server, id: Id) {
    && id in s.ctxs && CtxOk(s.ctxs[id])
    && (id in s.changed ==> s.ctxs[id].kind == Open && s.ctxs[id].flags.creat)
  }

  // A job that owes its client an error and has changed the tree: an open with
  // O_CREAT, or a mkdir that got no node
  ghost predicate Blamed(s: Server, id: Id) {
    && id in s.ctxs && id in s.q.jobs
    && ((s.ctxs[id].kind == Open && s.ctxs[id].flags.creat)
        || (s.ctxs[id].kind == Mkdir && s.q.jobs[id].result == -ENOMEM))
  }

  // What holds of every job by itself
  ghost predicate JobsInv(s: Server) {
    && (forall id :: id in s.q.jobs && CP.Nested(s.q.jobs[id].state) ==> Kept(s, id))
    && (forall id :: id in s.q.jobs && s.q.jobs[id].state == CM.NeedReply && s.q.jobs[id].result < 0 && id in s.changed
                     ==> Blamed(s, id))
  }

  ghost predicate ServerInv(s: Server) {
    && CP.Sound(s.q) && CP.Settled(s.q, None) && NP.Inv(s.tree) && JobsInv(s)
    && (forall id :: id in s.ctxs || id in s.changed ==> id < |s.q.asked|)
  }

  // ---- polling

  // A poll lets go of jobs, sends what waits to be sent, and gives up with -EIO.
  ghost predicate PolledOn(q: CM.Queue, q': CM.Queue) {
    forall k :: k in q'.jobs ==> PolledJob(q, q', k)
  }

  ghost predicate PolledJob(q: CM.Queue, q': CM.Queue, k: Id)
    requires k in q'.jobs
  {
    && k in q.jobs
    && (CP.Nested(q'.jobs[k].state) ==> CP.Nested(q.jobs[k].state))
    && (q'.jobs[k].state == CM.NeedReply ==>
          || (q.jobs[k].state == CM.NeedReply && q'.jobs[k].result == q.jobs[k].result)
          || (CP.Nested(q.jobs[k].state) && q'.jobs[k].result == -EIO))
  }

  lemma ReplyKeepsResult(q: CM.Queue, o: CM.Oracle, id: Id)
    requires id in q.jobs
    ensures CM.TryReply(q, o, id).0.jobs[id].result == q.jobs[id].result
  {
  }

  lemma PollJobIs(q: CM.Queue, o: CM.Oracle, id: Id)
    requires CP.Sound(q) && CP.Settled(q, None) && id in q.jobs
    ensures PolledOn(q, CM.PollJob(q, o, id))
  {
    var q' := CM.PollJob(q, o, id);
    CP.PollJobSound(q, o, id);
    forall k | k in q'.jobs ensures PolledJob(q, q', k) {
      if k == id && q.jobs[id].state == CM.NeedReply {
        ReplyKeepsResult(q, o, id);
        CP.TryReplySound(q, o, id);
      }
    }
  }

  lemma {:induction false} PollAllIs(q: CM.Queue, o: CM.Oracle, ids: seq<Id>)
    requires CP.Sound(q) && CP.Settled(q, None)
    ensures PolledOn(q, CM.PollAll(q, o, ids))
    decreases |ids|
  {
    if ids != [] {
      if ids[0] in q.jobs {
        var q1 := CM.PollJob(q, o, ids[0]);
        CP.PollJobSound(q, o, ids[0]);
        PollJobIs(q, o, ids[0]);
        PollAllIs(q1, o, ids[1..]);
        PolledTwice(q, q1, CM.PollAll(q1, o, ids[1..]));
      } else {
        PollAllIs(q, o, ids[1..]);
      }
    }
  }

  lemma PolledTwice(q: CM.Queue, q1: CM.Queue, q2: CM.Queue)
    requires PolledOn(q, q1) && PolledOn(q1, q2)
    ensures PolledOn(q, q2)
  {
    forall k | k in q2.jobs ensures PolledJob(q, q2, k) {
      assert PolledJob(q1, q2, k);
      assert PolledJob(q, q1, k);
    }
  }

  // ---- one step

  // How the job that a message is about comes out of it
  ghost predicate Outcome(q': CM.Queue, id: Id, p: CM.Prog) {
    id in q'.jobs ==>
      && (CP.Nested(q'.jobs[id].state) ==> p.Issue?)
      && (q'.jobs[id].state == CM.NeedReply ==> CM.Verdict(p, false) == Some(q'.jobs[id].result))
  }

  // All other jobs are as a poll leaves them.
  ghost predicate OthersPolled(q: CM.Queue, q': CM.Queue, id: Id) {
    forall k :: k in q'.jobs && k != id ==> PolledJob(q, q', k)
  }

  lemma AcceptIs(q: CM.Queue, o: CM.Oracle, port: Port, p: CM.Prog)
    requires CP.Sound(q) && CP.Settled(q, None) && CM.InOrder(p, true)
    ensures var q', id := CM.Accept(q, o, port, p), |q.asked|;
            Outcome(q', id, p) && OthersPolled(q, q', id)
  {
    var id, q0 := |q.asked|, CM.Create(q, port);
    CP.CreateSound(q, port);
    CP.ExecSound(q0, o, id, p, true);
    var (q1, d) := CM.Exec(q0, o, id, p);
    if d.Handled? {
      var q2 := if q1.jobs[id].state == CM.NeedReply then q1 else CM.SetResult(q1, id, d.result);
      if q1.jobs[id].state != CM.NeedReply {
        CP.FinishSound(q1, id, d.result);
      }
      AnsweredIs(q, q2, o, id, p);
    }
  }

  lemma AnsweredIs(q: CM.Queue, q2: CM.Queue, o: CM.Oracle, id: Id, p: CM.Prog)
    requires CP.Sound(q2) && CP.Settled(q2, None) && id in q2.jobs && q2.jobs[id].state == CM.NeedReply
    requires CM.Verdict(p, false) == Some(q2.jobs[id].result)
    requires forall k :: k in q2.jobs && k != id ==> k in q.jobs && q2.jobs[k] == q.jobs[k]
    ensures Outcome(CM.Poll(q2, o), id, p) && OthersPolled(q, CM.Poll(q2, o), id)
  {
    var q' := CM.Poll(q2, o);
    PollAllIs(q2, o, q2.order);
    forall k | k in q'.jobs ensures PolledJob(q2, q', k) {
    }
    assert id in q'.jobs ==> PolledJob(q2, q', id);
  }

  lemma ApplyIs(q: CM.Queue, o: CM.Oracle, cookie: nat, p: CM.Prog, id: Id)
    requires CP.Sound(q) && CP.Settled(q, None) && CM.InOrder(p, false) && CM.Waiting(q, q.order, cookie) == Some(id)
    ensures var q' := CM.ApplyNestReply(q, o, cookie, p);
            Outcome(q', id, p) && OthersPolled(q, q', id)
  {
    CP.ResumedSound(q, id);
    CP.ExecSound(CP.Resumed(q, id), o, id, p, false);
  }

  // ---- every step keeps the invariant

  lemma StepSound(s: Server, o: CM.Oracle, e: Event)
    requires ServerInv(s) && Wellformed([e])
    ensures CM.Proper([Seen(s, e)])
    ensures CP.Sound(Step(s, o, e).q) && CP.Settled(Step(s, o, e).q, None) && |Step(s, o, e).q.asked| >= |s.q.asked|
    ensures e.Ask? ==> |Step(s, o, e).q.asked| == |s.q.asked| + 1
  {
    match e {
      case Ask(port, req, env) =>
        assert [e][0] == e;
        StartInOrder(s.tree, env, req);
      case Tell(cookie, nested, env) =>
        var w := Addressee(s, cookie);
        if w.Some? {
          ResumeInOrder(s.tree, env, s.ctxs[w.value], nested);
        }
      case Poll =>
    }
    CP.HandleSound(s.q, o, Seen(s, e));
  }

  lemma OthersKept(s: Server, s': Server, id: Id)
    requires JobsInv(s) && OthersPolled(s.q, s'.q, id)
    requires forall k :: k != id ==> (k in s.ctxs <==> k in s'.ctxs) && (k in s.ctxs ==> s'.ctxs[k] == s.ctxs[k])
    requires forall k :: k != id ==> (k in s.changed <==> k in s'.changed)
    requires id in s'.q.jobs && CP.Nested(s'.q.jobs[id].state) ==> Kept(s', id)
    requires id in s'.q.jobs && s'.q.jobs[id].state == CM.NeedReply && s'.q.jobs[id].result < 0 && id in s'.changed
             ==> Blamed(s', id)
    ensures JobsInv(s')
  {
    forall k | k in s'.q.jobs && CP.Nested(s'.q.jobs[k].state) ensures Kept(s', k) {
      if k != id {
        assert PolledJob(s.q, s'.q, k);
        assert Kept(s, k);
      }
    }
    forall k | k in s'.q.jobs && s'.q.jobs[k].state == CM.NeedReply && s'.q.jobs[k].result < 0 && k in s'.changed
      ensures Blamed(s', k)
    {
      if k != id {
        assert PolledJob(s.q, s'.q, k);
        if CP.Nested(s.q.jobs[k].state) {
          assert Kept(s, k);
        } else {
          assert Blamed(s, k);
        }
      }
    }
  }

  lemma AskKeeps(s: Server, o: CM.Oracle, port: Port, req: Request, env: Env)
    requires ServerInv(s) && (req.Job? ==> req.ctx.step == Begin)
    ensures JobsInv(Step(s, o, Ask(port, req, env)))
  {
    var s', id := Step(s, o, Ask(port, req, env)), |s.q.asked|;
    var out := Start(s.tree, env, req);
    StartInOrder(s.tree, env, req);
    AcceptIs(s.q, o, port, out.prog);
    assert id !in s.changed;
    OthersKept(s, s', id);
  }

  lemma TellKeeps(s: Server, o: CM.Oracle, cookie: nat, nested: int, env: Env)
    requires ServerInv(s) && Addressee(s, cookie).Some?
    ensures JobsInv(Step(s, o, Tell(cookie, nested, env)))
  {
    var s', id := Step(s, o, Tell(cookie, nested, env)), Addressee(s, cookie).value;
    var c := s.ctxs[id];
    assert Kept(s, id);
    var out := Resume(s.tree, env, c, nested);
    ResumeInOrder(s.tree, env, c, nested);
    ApplyIs(s.q, o, cookie, out.prog, id);
    if out.prog.Issue? && out.tree != s.tree {
      ParkedChange(s.tree, env, c, nested);
    }
    var v := CM.Verdict(out.prog, false);
    if v.Some? && v.value < 0 && out.tree != s.tree {
      FailedChange(s.tree, env, c, nested);
    }
    OthersKept(s, s', id);
  }

  // Every reply that some job waits for has a context to go on with.
  lemma AddresseeIs(s: Server, cookie: nat)
    requires ServerInv(s)
    ensures Addressee(s, cookie) == CM.Waiting(s.q, s.q.order, cookie)
  {
    var w := CM.Waiting(s.q, s.q.order, cookie);
    if w.Some? {
      assert Kept(s, w.value);
    }
  }

  lemma PollKeeps(s: Server, o: CM.Oracle)
    requires ServerInv(s)
    ensures JobsInv(Step(s, o, Poll))
  {
    var s' := Step(s, o, Poll);
    PollAllIs(s.q, o, s.q.order);
    CP.PollAllSound(s.q, o, s.q.order);
    CreatedLess(s.q, |s.q.asked|);
    OthersKept(s, s', |s.q.asked|);
  }

  lemma CreatedLess(q: CM.Queue, id: Id)
    requires CP.Sound(q) && id >= |q.asked|
    ensures id !in q.jobs
  {
    CP.Unfold(q);
  }

  lemma TreeKeeps(s: Server, o: CM.Oracle, e: Event)
    requires ServerInv(s) && Wellformed([e])
    ensures NP.Inv(Step(s, o, e).tree)
  {
    match e {
      case Ask(port, req, env) =>
        assert [e][0] == e;
        StartKeeps(s.tree, env, req);
      case Tell(cookie, nested, env) =>
        var w := Addressee(s, cookie);
        if w.Some? {
          assert Kept(s, w.value);
          ResumeKeeps(s.tree, env, s.ctxs[w.value], nested);
        }
      case Poll =>
    }
  }

  lemma StepKeeps(s: Server, o: CM.Oracle, e: Event)
    requires ServerInv(s) && Wellformed([e])
    ensures ServerInv(Step(s, o, e)) && CM.Proper([Seen(s, e)])
  {
    StepSound(s, o, e);
    TreeKeeps(s, o, e);
    assert JobsInv(Step(s, o, e)) by {
      match e {
        case Ask(port, req, env) =>
          assert [e][0] == e;
          AskKeeps(s, o, port, req, env);
        case Tell(cookie, nested, env) =>
          AddresseeIs(s, cookie);
          if Addressee(s, cookie).Some? {
            TellKeeps(s, o, cookie, nested, env);
          }
        case Poll => PollKeeps(s, o);
      }
    }
    NumbersKept(s, o, e);
  }

  lemma NumbersKept(s: Server, o: CM.Oracle, e: Event)
    requires ServerInv(s) && |Step(s, o, e).q.asked| >= |s.q.asked|
    requires e.Ask? ==> |Step(s, o, e).q.asked| == |s.q.asked| + 1
    ensures var s' := Step(s, o, e);
            forall id :: id in s'.ctxs || id in s'.changed ==> id < |s'.q.asked|
  {
  }

  // ---- whole runs

  // The queue of the file server runs as a queue whose every program is in order,
  // so all that CoopTheorems says of such a queue holds of the file server.
  lemma {:induction false} ServerIsQueueRun(s: Server, o: CM.Oracle, events: seq<Event>)
    requires ServerInv(s) && Wellformed(events)
    ensures ServerInv(Run(s, o, events))
    ensures CM.Proper(Trace(s, o, events)) && Run(s, o, events).q == CM.Serve(s.q, o, Trace(s, o, events))
    decreases |events|
  {
    if events != [] {
      var e, rest := events[0], events[1..];
      var s1 := Step(s, o, e);
      assert Wellformed([e]);
      StepKeeps(s, o, e);
      ServerIsQueueRun(s1, o, rest);
      var trace, tail := Trace(s, o, events), Trace(s1, o, rest);
      assert trace == [Seen(s, e)] + tail && trace[0] == Seen(s, e) && trace[1..] == tail;
      ProperThen(Seen(s, e), tail);
    }
  }

  lemma ProperThen(e: CM.Event, rest: seq<CM.Event>)
    requires CM.Proper([e]) && CM.Proper(rest)
    ensures CM.Proper([e] + rest)
  {
    assert [e][0] == e;
  }

  lemma BootedInv()
    ensures ServerInv(BOOTED)
  {
    CP.EmptySound();
    NT.InitialInv();
  }

  // After any messages and polls, whatever backends, memory and the core answer:
  // no job of the file server is in state NONE, a job that waits to send owns the
  // slot, a job that waits for a reply has its own request outstanding and a
  // context to go on with, and the tree is in order.
  lemma {:induction false} NoFileJobIsStranded(o: CM.Oracle, events: seq<Event>, id: Id)
    requires Wellformed(events) && id in Run(BOOTED, o, events).q.jobs
    ensures var s := Run(BOOTED, o, events);
            var j := s.q.jobs[id];
            && NP.Inv(s.tree)
            && (|| j.state == CM.NeedReply
                || (j.state == CM.NestedSend && s.q.owner == Some(id) && id in s.ctxs)
                || (j.state == CM.NestedRecv && j.cookie in s.q.issuer && s.q.issuer[j.cookie] == id && id in s.ctxs))
  {
    BootedInv();
    ServerIsQueueRun(BOOTED, o, events);
    CT.NoJobIsStranded(o, Trace(BOOTED, o, events), id);
    var s := Run(BOOTED, o, events);
    if CP.Nested(s.q.jobs[id].state) {
      assert Kept(s, id);
    }
  }

  // A client is told of an error by a job that has changed the tree only if the
  // job is an open with O_CREAT, or a mkdir that got no node.
  lemma {:induction false} FailedJobsLeaveTree(o: CM.Oracle, events: seq<Event>, id: Id)
    requires Wellformed(events) && id in Run(BOOTED, o, events).q.jobs
    requires var j := Run(BOOTED, o, events).q.jobs[id]; j.state == CM.NeedReply && j.result < 0
    ensures var s := Run(BOOTED, o, events);
            id in s.changed ==>
              && id in s.ctxs
              && ((s.ctxs[id].kind == Open && s.ctxs[id].flags.creat)
                  || (s.ctxs[id].kind == Mkdir && s.q.jobs[id].result == -ENOMEM))
  {
    BootedInv();
    ServerIsQueueRun(BOOTED, o, events);
    var s := Run(BOOTED, o, events);
    if id in s.changed {
      assert Blamed(s, id);
    }
  }
}

/**
 Two results about whole runs of the file server: an exclusive open never succeeds,
 and an open that fails can leave its new file behind.
 */
module VfsRuns {
  import opened Common
  import opened Wrappers
  import opened VfsJobs
  import opened VfsTheorems
  import opened VfsServer
  import NM = NamespaceModel
  import NT = NamespaceTheorems
  import NR = NamespaceRefinement
  import CM = CoopModel
  import CP = CoopProofs

  // ---- exclusive opens

  // Backends answer with 0 or an error.
  predicate Told(events: seq<Event>) {
    forall i :: 0 <= i < |events| && events[i].Tell? ==> events[i].nested <= 0
  }

  // Every exclusive open that is about to be answered is answered with an error.
  ghost predicate ExclusiveFail(s: Server) {
    forall id :: id in s.q.jobs && id in s.ctxs && s.q.jobs[id].state == CM.NeedReply && Exclusive(s.ctxs[id]) ==>
                   s.q.jobs[id].result < 0
  }

  // The job of a message comes out failed, and all others are as a poll leaves them.
  lemma OthersFail(s: Server, s': Server, id: Id)
    requires ExclusiveFail(s) && JobsInv(s) && OthersPolled(s.q, s'.q, id)
    requires forall k :: k != id && k in s'.ctxs ==> k in s.ctxs && s'.ctxs[k] == s.ctxs[k]
    requires id in s'.q.jobs && id in s'.ctxs && s'.q.jobs[id].state == CM.NeedReply && Exclusive(s'.ctxs[id]) ==>
               s'.q.jobs[id].result < 0
    ensures ExclusiveFail(s')
  {
    forall k | k in s'.q.jobs && k in s'.ctxs && s'.q.jobs[k].state == CM.NeedReply && Exclusive(s'.ctxs[k])
      ensures s'.q.jobs[k].result < 0
    {
      if k != id {
        assert PolledJob(s.q, s'.q, k);
      }
    }
  }

  lemma AskFails(s: Server, o: CM.Oracle, port: Port, req: Request, env: Env)
    requires ServerInv(s) && ExclusiveFail(s) && (req.Job? ==> req.ctx.step == Begin)
    ensures ExclusiveFail(Step(s, o, Ask(port, req, env)))
  {
    StartInOrder(s.tree, env, req);
    AcceptIs(s.q, o, port, Start(s.tree, env, req).prog);
    OthersFail(s, Step(s, o, Ask(port, req, env)), |s.q.asked|);
  }

  lemma TellFails(s: Server, o: CM.Oracle, cookie: nat, nested: int, env: Env)
    requires ServerInv(s) && ExclusiveFail(s) && nested <= 0
    ensures ExclusiveFail(Step(s, o, Tell(cookie, nested, env)))
  {
    AddresseeIs(s, cookie);
    var w := Addressee(s, cookie);
    if w.Some? {
      var id, c := w.value, s.ctxs[w.value];
      assert Kept(s, id);
      var out := Resume(s.tree, env, c, nested);
      ResumeInOrder(s.tree, env, c, nested);
      if Exclusive(c) {
        ExclusiveOpenFails(s.tree, env, c, nested);
      }
      ApplyIs(s.q, o, cookie, out.prog, id);
      OthersFail(s, Step(s, o, Tell(cookie, nested, env)), id);
    }
  }

  lemma PollFails(s: Server, o: CM.Oracle)
    requires ServerInv(s) && ExclusiveFail(s)
    ensures ExclusiveFail(Step(s, o, Poll))
  {
    PollAllIs(s.q, o, s.q.order);
    CP.PollAllSound(s.q, o, s.q.order);
    CreatedLess(s.q, |s.q.asked|);
    OthersFail(s, Step(s, o, Poll), |s.q.asked|);
  }

  lemma {:induction false} RunFails(s: Server, o: CM.Oracle, events: seq<Event>)
    requires ServerInv(s) && ExclusiveFail(s) && Wellformed(events) && Told(events)
    ensures ExclusiveFail(Run(s, o, events))
    decreases |events|
  {
    if events != [] {
      var e := events[0];
      assert Wellformed([e]);
      StepKeeps(s, o, e);
      match e {
        case Ask(port, req, env) => AskFails(s, o, port, req, env);
        case Tell(cookie, nested, env) => TellFails(s, o, cookie, nested, env);
        case Poll => PollFails(s, o);
      }
      RunFails(Step(s, o, e), o, events[1..]);
    }
  }

  // In every run an open with O_CREAT and O_EXCL is answered with an error, if it is
  // answered: at its first step, or at any later one.
  lemma {:induction false} ExclusiveOpensFail(o: CM.Oracle, events: seq<Event>, id: Id)
    requires Wellformed(events) && Told(events) && id in Run(BOOTED, o, events).q.jobs
    requires id in Run(BOOTED, o, events).ctxs && Exclusive(Run(BOOTED, o, events).ctxs[id])
    ensures var j := Run(BOOTED, o, events).q.jobs[id]; j.state == CM.NeedReply ==> j.result < 0
  {
    BootedInv();
    RunFails(BOOTED, o, events);
  }

  // ---- an open that fails and leaves its file

  // The core refuses the second nested request and nothing else.
  const SECOND_REFUSED: CM.Oracle := (n: nat) => CM.Answer(n != 1, true, CM.Success, false)

  // open(name, O_CREAT)
  function Creating(name: NM.Name): Ctx { NO_JOB.(kind := Open, path := [name], flags := NO_FLAGS.(creat := true)) }

  // The name is free, its directory can be written, and a backend serves it.
  predicate Serves(env: Env, name: NM.Name, port: Port) {
    && env.mounted([name]).None? && env.backendPort([name]) == Some(port)
    && env.perm(NM.ROOT) >= 0 && env.room(1)
  }

  lemma FirstLookup(name: NM.Name)
    ensures NM.Lookup(NT.INITIAL, [name]) == None && !Live(NT.INITIAL, [name])
  {
    NR.InitialReady();
    NR.LookupTop(NT.INITIAL, name, true);
    NR.LookupTop(NT.INITIAL, name, false);
    assert NM.FindIn(NT.INITIAL.nodes, [], name) == None;
  }

  lemma CreateIsAsked(env: Env, name: NM.Name, port: Port)
    requires Serves(env, name, port)
    ensures Start(NT.INITIAL, env, Job(Creating(name))) ==
            Out(CM.CallOrFail(port, -EIO), NT.INITIAL,
                Creating(name).(needCommit := true, step := AtCreate, port := port))
  {
    FirstLookup(name);
  }

  lemma CreateIsDone(env: Env, name: NM.Name, port: Port)
    requires Serves(env, name, port)
    ensures var out := Resume(NT.INITIAL, env, Creating(name).(needCommit := true, step := AtCreate, port := port), 0);
            out.prog == CM.CallOrFail(port, -EIO) && NM.Lookup(out.tree, [name]) == Some(1)
  {
    FirstOpenFailsAfterCreate(env, name);
  }

  // The queue on the way: the first nested request is out,
  function CreateSent(client: Port, port: Port): CM.Queue {
    CM.Queue(map[0 := CM.Job(CM.NestedRecv, client, 0, port, 1, false)], [0], None, [], 1, [client], 1,
             [CM.Sent(port, CM.Request(0, port, 1))], map[1 := 0])
  }

  // the second was refused.
  function LookupRefused(client: Port, port: Port): CM.Queue {
    CreateSent(client, port).(jobs := map[0 := CM.Job(CM.NeedReply, client, -EIO, "", 0, false)], cookieSeq := 2,
                              tick := 2, issuer := map[1 := 0, 2 := 0])
  }

  lemma QueueSends(client: Port, port: Port)
    ensures CM.Accept(CM.EMPTY, SECOND_REFUSED, client, CM.CallOrFail(port, -EIO)) == CreateSent(client, port)
  {
    var q0 := CM.Create(CM.EMPTY, client);
    CP.IssueNestedIsOneCall(q0, SECOND_REFUSED, 0, port, CM.MAX_TRIES);
    CP.CallRuns(q0, SECOND_REFUSED, 0, port, -EIO);
    assert SECOND_REFUSED(0) == CM.Answer(true, true, CM.Success, false);
  }

  lemma QueueRefuses(client: Port, port: Port)
    ensures CM.ApplyNestReply(CreateSent(client, port), SECOND_REFUSED, 1, CM.CallOrFail(port, -EIO)) ==
            LookupRefused(client, port)
  {
    var q := CreateSent(client, port);
    var q0 := CM.SetJob(q, 0, CM.NestedClear(q.jobs[0]).(state := CM.Fresh));
    CP.IssueNestedIsOneCall(q0, SECOND_REFUSED, 0, port, CM.MAX_TRIES);
    CP.CallRuns(q0, SECOND_REFUSED, 0, port, -EIO);
    assert SECOND_REFUSED(1) == CM.Answer(false, true, CM.Success, false);
  }

  lemma QueueReplies(client: Port, port: Port)
    ensures CM.Poll(LookupRefused(client, port), SECOND_REFUSED).outbox ==
            [CM.Sent(port, CM.Request(0, port, 1)), CM.Sent(client, CM.Reply(0, client, -EIO))]
  {
    var q := LookupRefused(client, port);
    assert [0][1..] == [];
    var q' := CM.PollJob(q, SECOND_REFUSED, 0);
    assert CM.PollAll(q, SECOND_REFUSED, [0]) == CM.PollAll(q', SECOND_REFUSED, []) == q';
    assert SECOND_REFUSED(2) == SECOND_REFUSED(3) == CM.Answer(true, true, CM.Success, false);
  }

  // The server after the request,
  lemma Asked(env: Env, name: NM.Name, client: Port, port: Port)
    requires Serves(env, name, port)
    ensures var s := Step(BOOTED, SECOND_REFUSED, Ask(client, Job(Creating(name)), env));
            && s.q == CreateSent(client, port) && s.tree == NT.INITIAL
            && s.ctxs == map[0 := Creating(name).(needCommit := true, step := AtCreate, port := port)]
  {
    CreateIsAsked(env, name, port);
    QueueSends(client, port);
  }

  // and after the answer of the backend
  lemma Answered(s: Server, env: Env, name: NM.Name, client: Port, port: Port)
    requires Serves(env, name, port) && s.q == CreateSent(client, port) && s.tree == NT.INITIAL
    requires s.ctxs == map[0 := Creating(name).(needCommit := true, step := AtCreate, port := port)]
    ensures var s' := Step(s, SECOND_REFUSED, Tell(1, 0, env));
            s'.q == LookupRefused(client, port) && NM.Lookup(s'.tree, [name]) == Some(1)
  {
    CreateIsDone(env, name, port);
    QueueRefuses(client, port);
  }

  lemma RunFirst(s: Server, o: CM.Oracle, e: Event, rest: seq<Event>)
    ensures Run(s, o, [e] + rest) == Run(Step(s, o, e), o, rest)
  {
    assert ([e] + rest)[1..] == rest;
  }

  // A run from the start: the client asks for a new file, the backend creates it, the
  // request that would look it up is refused.  The client is told -EIO, and the file
  // is there.
  lemma OpenFailsAndLeavesFile(env: Env, env': Env, name: NM.Name, client: Port, port: Port)
    requires Serves(env, name, port) && Serves(env', name, port)
    ensures var events := [Ask(client, Job(Creating(name)), env), Tell(1, 0, env'), Poll];
            var s := Run(BOOTED, SECOND_REFUSED, events);
            && Wellformed(events) && CM.Sent(client, CM.Reply(0, client, -EIO)) in s.q.outbox
            && NM.Lookup(BOOTED.tree, [name]) == None && NM.Lookup(s.tree, [name]) == Some(1)
  {
    var o, a, b := SECOND_REFUSED, Ask(client, Job(Creating(name)), env), Tell(1, 0, env');
    assert [a, b, Poll] == [a] + ([b] + ([Poll] + []));
    FirstLookup(name);
    Asked(env, name, client, port);
    var s1 := Step(BOOTED, o, a);
    Answered(s1, env', name, client, port);
    QueueReplies(client, port);
    RunFirst(BOOTED, o, a, [b] + ([Poll] + []));
    RunFirst(s1, o, b, [Poll] + []);
    RunFirst(Step(s1, o, b), o, Poll, []);
  }
}

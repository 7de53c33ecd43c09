/**
 What holds of the cooperative server after any number of messages and polls,
 whatever the core answers and whatever the server's code decides.
 */
module CoopTheorems {
  import opened Common
  import opened Wrappers
  import Bytes
  import opened CoopModel
  import opened CoopProofs

  function Reached(o: Oracle, events: seq<Event>): Queue {
    Serve(EMPTY, o, events)
  }

  lemma ReachedSound(o: Oracle, events: seq<Event>)
    requires Proper(events)
    ensures Sound(Reached(o, events)) && Settled(Reached(o, events), None)
    ensures Reached(o, events).asked == Arrivals(events)
  {
    EmptySound();
    ServeSound(EMPTY, o, events);
    assert [] + Arrivals(events) == Arrivals(events);
  }

  // The single send slot: a job has a payload queued exactly when it is the
  // owner, the queue holds that payload and no other, and the payload is what
  // the owner wants sent.
  lemma SlotHasOneOwner(o: Oracle, events: seq<Event>)
    requires Proper(events)
    ensures var q := Reached(o, events);
            && (forall k :: k in q.jobs ==> (q.jobs[k].queued <==> q.owner == Some(k)))
            && (q.owner.None? <==> q.slot == [])
            && (q.owner.Some? ==> q.owner.value in q.jobs && |q.slot| == 1
                                  && Wants(q.jobs[q.owner.value], q.owner.value, q.slot[0]))
  {
    ReachedSound(o, events);
    Unfold(Reached(o, events));
  }

  // Between two messages no job is in state NONE, a job that waits to send owns
  // the slot, so the poll loop never skips it, and a job that waits for a
  // nested reply has a request of its own outstanding.
  lemma NoJobIsStranded(o: Oracle, events: seq<Event>, id: Id)
    requires Proper(events)
    requires id in Reached(o, events).jobs
    ensures var q := Reached(o, events);
            var j := q.jobs[id];
            && id in q.order
            && (j.state == NeedReply
                || (j.state == NestedSend && q.owner == Some(id))
                || (j.state == NestedRecv && j.cookie in q.issuer && q.issuer[j.cookie] == id))
  {
    ReachedSound(o, events);
    Unfold(Reached(o, events));
  }

  // Every request is answered at most once, at the port it named, and a job
  // that is still in the queue has not been answered.
  lemma AtMostOneReply(o: Oracle, events: seq<Event>, i: nat, j: nat)
    requires Proper(events)
    requires i < |Reached(o, events).outbox| && j < |Reached(o, events).outbox|
    requires Reached(o, events).outbox[i].payload.Reply? && Reached(o, events).outbox[j].payload.Reply?
    ensures var q := Reached(o, events);
            var (s, t) := (q.outbox[i], q.outbox[j]);
            && (s.payload.id == t.payload.id ==> i == j)
            && s.payload.id !in q.jobs
            && s.payload.id < |Arrivals(events)|
            && s.port == s.payload.port == Arrivals(events)[s.payload.id]
  {
    ReachedSound(o, events);
    Unfold(Reached(o, events));
  }

  // No payload ever reaches the port of another.
  lemma NothingIsMisdelivered(o: Oracle, events: seq<Event>, i: nat)
    requires Proper(events)
    requires i < |Reached(o, events).outbox|
    ensures var s := Reached(o, events).outbox[i];
            s.port == Dest(s.payload)
  {
    ReachedSound(o, events);
    Unfold(Reached(o, events));
  }

  // The next cookie was never issued, and no job holds it.  Every cookie costs the
  // core an answer, so the 64-bit counter of the code is this one, and not zero,
  // until the core has answered 2^64 - 1 times.
  lemma CookieIsFresh(o: Oracle, events: seq<Event>)
    requires Proper(events)
    ensures var q := Reached(o, events);
            && q.cookieSeq + 1 !in q.issuer && 0 !in q.issuer
            && (forall k :: k in q.jobs ==> q.jobs[k].cookie != q.cookieSeq + 1)
            && (q.tick < Bytes.U64 - 1 ==> 0 < (q.cookieSeq + 1) % Bytes.U64 == q.cookieSeq + 1)
  {
    ReachedSound(o, events);
    Unfold(Reached(o, events));
    ServePays(EMPTY, o, events);
  }

  // No cookie without an answer of the core
  predicate Paid(q: Queue, q': Queue) {
    q.tick <= q'.tick && q'.cookieSeq - q.cookieSeq <= q'.tick - q.tick
  }

  lemma {:induction false} IssuePays(q: Queue, o: Oracle, id: Id, server: Port)
    requires id in q.jobs
    ensures Paid(q, IssueNested(q, o, id, server, MAX_TRIES).0)
  {
    IssueNestedIsOneCall(q, o, id, server, MAX_TRIES);
  }

  lemma {:induction false} ExecPays(q: Queue, o: Oracle, id: Id, p: Prog)
    requires id in q.jobs
    ensures Paid(q, Exec(q, o, id, p).0)
    decreases p
  {
    match p {
      case Return(_) =>
      case Finish(r, next) => ExecPays(SetResult(q, id, r), o, id, next);
      case Issue(server, parked, refused) =>
        IssuePays(q, o, id, server);
        var (q1, ok) := IssueNested(q, o, id, server, MAX_TRIES);
        ExecPays(q1, o, id, if ok then parked else refused);
    }
  }

  lemma PollJobPays(q: Queue, o: Oracle, id: Id)
    requires id in q.jobs
    ensures Paid(q, PollJob(q, o, id))
  {
  }

  lemma {:induction false} PollAllPays(q: Queue, o: Oracle, ids: seq<Id>)
    ensures Paid(q, PollAll(q, o, ids))
    decreases |ids|
  {
    if ids != [] {
      if ids[0] in q.jobs {
        PollJobPays(q, o, ids[0]);
        PollAllPays(PollJob(q, o, ids[0]), o, ids[1..]);
      } else {
        PollAllPays(q, o, ids[1..]);
      }
    }
  }

  lemma AcceptPays(q: Queue, o: Oracle, port: Port, p: Prog)
    ensures Paid(q, Accept(q, o, port, p))
  {
    var id := |q.asked|;
    ExecPays(Create(q, port), o, id, p);
    var (q1, d) := Exec(Create(q, port), o, id, p);
    if d.Handled? {
      var q2 := if q1.jobs[id].state == NeedReply then q1 else SetResult(q1, id, d.result);
      PollAllPays(q2, o, q2.order);
    }
  }

  lemma {:induction false} ServePays(q: Queue, o: Oracle, events: seq<Event>)
    ensures Paid(q, Serve(q, o, events))
    decreases |events|
  {
    if events != [] {
      match events[0] {
        case Arrive(port, p) => AcceptPays(q, o, port, p);
        case NestReply(cookie, p) =>
          var w := Waiting(q, q.order, cookie);
          if w.Some? {
            ExecPays(Resumed(q, w.value), o, w.value, p);
          }
        case PollNow => PollAllPays(q, o, q.order);
      }
      ServePays(Handle(q, o, events[0]), o, events[1..]);
    }
  }

  // The job that is waiting for the reply with this cookie, if any.
  ghost predicate Awaits(q: Queue, id: Id, cookie: nat) {
    id in q.jobs && q.jobs[id].state == NestedRecv && q.jobs[id].cookie == cookie
  }

  // A reply is applied to the job that sent the request with its cookie and
  // changes no other job; if that job no longer waits for it, nothing changes.
  lemma NestedReplyReachesIssuer(o: Oracle, events: seq<Event>, cookie: nat, p: Prog)
    requires Proper(events) && InOrder(p, false)
    ensures var q := Reached(o, events);
            var q' := ApplyNestReply(q, o, cookie, p);
            && ((cookie in q.issuer && Awaits(q, q.issuer[cookie], cookie)) ==>
                  && OnlyJob(q, q', q.issuer[cookie])
                  && !Awaits(q', q.issuer[cookie], cookie))
            && (!(cookie in q.issuer && Awaits(q, q.issuer[cookie], cookie)) ==> q' == q)
            && (forall i ::
                  0 <= i < |q.outbox| && q.outbox[i].payload.Request? && q.outbox[i].payload.cookie == cookie ==>
                  cookie in q.issuer && q.outbox[i].payload.id == q.issuer[cookie])
  {
    ReachedSound(o, events);
    var q := Reached(o, events);
    assert RequestsOk(q) by { Unfold(q); }
    var w := Waiting(q, q.order, cookie);
    if w.Some? {
      WaiterIsIssuer(q, w.value, cookie);
      ReplyMovesOn(q, o, w.value, cookie, p);
    } else {
      assert forall k :: k in q.jobs ==> k in q.order by { Unfold(q); }
    }
  }

  lemma WaiterIsIssuer(q: Queue, id: Id, cookie: nat)
    requires Sound(q) && Awaits(q, id, cookie)
    ensures cookie in q.issuer && q.issuer[cookie] == id && 0 < cookie <= q.cookieSeq
  {
    Unfold(q);
  }

  // Cookies grow, and only job id can be given a new one.
  ghost predicate CookieMoved(q: Queue, q': Queue, id: Id) {
    && id in q.jobs && id in q'.jobs
    && (q'.jobs[id].cookie == q.jobs[id].cookie || q'.jobs[id].cookie == 0 || q'.jobs[id].cookie == q.cookieSeq + 1)
    && q'.cookieSeq >= q.cookieSeq
    && (forall c :: c in q.issuer && c <= q.cookieSeq ==> c in q'.issuer && q'.issuer[c] == q.issuer[c])
  }

  lemma NestedCallCookie(q: Queue, o: Oracle, id: Id, server: Port)
    requires id in q.jobs
    ensures CookieMoved(q, NestedCall(q, o, id, server).0, id)
  {
  }

  lemma IssueCookie(q: Queue, o: Oracle, id: Id, server: Port)
    requires id in q.jobs
    ensures CookieMoved(q, IssueNested(q, o, id, server, MAX_TRIES).0, id)
  {
    NestedCallCookie(q, o, id, server);
    IssueNestedIsOneCall(q, o, id, server, MAX_TRIES);
  }

  // A whole program: the cookie the job ends with is none or a new one.
  ghost predicate CookieNew(q: Queue, q': Queue, id: Id) {
    && id in q'.jobs && (q'.jobs[id].cookie == 0 || q'.jobs[id].cookie > q.cookieSeq) && q'.cookieSeq >= q.cookieSeq
    && (forall c :: c in q.issuer && c <= q.cookieSeq ==> c in q'.issuer && q'.issuer[c] == q.issuer[c])
  }

  lemma {:induction false} ExecCookie(q: Queue, o: Oracle, id: Id, p: Prog, atStart: bool)
    requires Sound(q) && Settled(q, Some(id)) && id in q.jobs && q.jobs[id].state == Fresh && InOrder(p, atStart)
    ensures CookieNew(q, Exec(q, o, id, p).0, id)
    decreases p
  {
    FreshHasNone(q, id);
    match p {
      case Return(_) =>
      case Finish(r, next) => FinishSound(q, id, r);
      case Issue(server, parked, refused) =>
        IssueCookie(q, o, id, server);
        IssueSound(q, o, id, server);
        var (q1, ok) := IssueNested(q, o, id, server, MAX_TRIES);
        if !ok {
          ExecCookie(q1, o, id, refused, atStart);
        }
    }
  }

  lemma FreshHasNone(q: Queue, id: Id)
    requires Sound(q) && id in q.jobs && q.jobs[id].state == Fresh
    ensures q.jobs[id].cookie == 0
    ensures forall c :: c in q.issuer ==> c <= q.cookieSeq
  {
    Unfold(q);
  }

  lemma ReplyMovesOn(q: Queue, o: Oracle, id: Id, cookie: nat, p: Prog)
    requires Sound(q) && Settled(q, None) && Awaits(q, id, cookie) && Waiting(q, q.order, cookie) == Some(id)
    requires 0 < cookie <= q.cookieSeq && InOrder(p, false)
    ensures var q' := ApplyNestReply(q, o, cookie, p);
            OnlyJob(q, q', id) && !Awaits(q', id, cookie)
  {
    var q0 := Resumed(q, id);
    ResumedSound(q, id);
    ExecSound(q0, o, id, p, false);
    ExecCookie(q0, o, id, p, false);
  }

  // A second copy of a reply changes nothing.
  lemma DuplicateReplyIsIgnored(o: Oracle, events: seq<Event>, cookie: nat, p: Prog, p': Prog)
    requires Proper(events) && InOrder(p, false) && InOrder(p', false)
    ensures var q' := ApplyNestReply(Reached(o, events), o, cookie, p);
            ApplyNestReply(q', o, cookie, p') == q'
  {
    var q, q' := Reached(o, events), Reached(o, events + [NestReply(cookie, p)]);
    assert Proper(events + [NestReply(cookie, p)]);
    ServeLast(EMPTY, o, events, NestReply(cookie, p));
    assert q' == ApplyNestReply(q, o, cookie, p);
    NestedReplyReachesIssuer(o, events, cookie, p);
    NestedReplyReachesIssuer(o, events + [NestReply(cookie, p)], cookie, p');
    IssuerStays(o, events, cookie, p);
  }

  lemma IssuerStays(o: Oracle, events: seq<Event>, cookie: nat, p: Prog)
    requires Proper(events) && InOrder(p, false)
    ensures var q := Reached(o, events);
            var q' := ApplyNestReply(q, o, cookie, p);
            cookie in q.issuer ==> cookie in q'.issuer && q'.issuer[cookie] == q.issuer[cookie]
  {
    var q := Reached(o, events);
    ReachedSound(o, events);
    var w := Waiting(q, q.order, cookie);
    if w.Some? {
      WaiterIsIssuer(q, w.value, cookie);
      ResumedSound(q, w.value);
      ExecCookie(Resumed(q, w.value), o, w.value, p, false);
    }
  }

  lemma {:induction false} ServeLast(q: Queue, o: Oracle, events: seq<Event>, e: Event)
    ensures Serve(q, o, events + [e]) == Handle(Serve(q, o, events), o, e)
    decreases |events|
  {
    var all := events + [e];
    if events != [] {
      assert all[1..] == events[1..] + [e];
      ServeLast(Handle(q, o, events[0]), o, events[1..], e);
    } else {
      assert all[1..] == [];
      assert Serve(Handle(q, o, e), o, []) == Handle(q, o, e);
    }
  }

  // The retry loop around a nested request is no help: while another job holds
  // the slot, a request that needs a nested call is answered with -EIO, and
  // with a free slot it is parked exactly when the core finds the server, has
  // memory and sends or postpones the request.
  lemma NestedCallParksIff(o: Oracle, events: seq<Event>, port: Port, server: Port)
    requires Proper(events)
    ensures var q := Create(Reached(o, events), port);
            var id := |Reached(o, events).asked|;
            var a := Ask(q, o);
            var j := Exec(q, o, id, CallOrFail(server, -EIO)).0.jobs[id];
            && (Nested(j.state) <==> q.owner.None? && a.found && a.room && (a.send.Success? || a.send.Again?))
            && (!Nested(j.state) ==> j.state == NeedReply && j.result == -EIO)
  {
    var q0, id := Reached(o, events), |Reached(o, events).asked|;
    ReachedSound(o, events);
    CreateSound(q0, port);
    var q := Create(q0, port);
    CallParksIff(q, o, id, server);
  }

  lemma CallParksIff(q: Queue, o: Oracle, id: Id, server: Port)
    requires Sound(q) && Settled(q, Some(id)) && id in q.jobs && q.jobs[id].state == Fresh
    ensures var a := Ask(q, o);
            var j := Exec(q, o, id, CallOrFail(server, -EIO)).0.jobs[id];
            && (Nested(j.state) <==> q.owner.None? && a.found && a.room && (a.send.Success? || a.send.Again?))
            && (!Nested(j.state) ==> j.state == NeedReply && j.result == -EIO)
  {
    assert q.owner != Some(id) by { Unfold(q); FreshOwnsNothing(q, id); }
    CallRuns(q, o, id, server, -EIO);
    IssueSound(q, o, id, server);
    var (q1, ok) := IssueNested(q, o, id, server, MAX_TRIES);
    assert ok <==>
              q.owner.None? && Ask(q, o).found && Ask(q, o).room
              && (Ask(q, o).send.Success? || Ask(q, o).send.Again?) by {
      IssueNestedIsOneCall(q, o, id, server, MAX_TRIES);
    }
    if !ok {
      FinishSound(q1, id, -EIO);
    }
  }

  // ---- a slot that is busy

  // A core that finds every port and never gets a message away at once
  const SLOW: Oracle := (i: nat) => Answer(true, true, Again, false)

  // Two clients ask for something that needs the same or another leaf server.
  // The first request waits in the send slot, the second is answered with -EIO.
  lemma BusySlotFailsSecond(port: Port, port': Port, server: Port, server': Port)
    ensures var first := [Arrive(port, CallOrFail(server, -EIO))];
            var both := first + [Arrive(port', CallOrFail(server', -EIO))];
            var q, q' := Reached(SLOW, first), Reached(SLOW, both);
            && Proper(both) && q.owner == Some(0) && 0 in q.jobs && q.jobs[0].state == NestedSend
            && 1 in q'.jobs && q'.jobs[1].state == NeedReply && q'.jobs[1].result == -EIO && q'.owner == Some(0)
  {
    var e, e' := Arrive(port, CallOrFail(server, -EIO)), Arrive(port', CallOrFail(server', -EIO));
    var q := Reached(SLOW, [e]);
    assert [e][1..] == [];
    assert Serve(EMPTY, SLOW, [e]) == Serve(Handle(EMPTY, SLOW, e), SLOW, [])
           == Accept(EMPTY, SLOW, port, CallOrFail(server, -EIO));
    FirstParks(port, server);
    ServeLast(EMPTY, SLOW, [e], e');
    SecondFails(q, port', server');
  }

  lemma FirstParks(port: Port, server: Port)
    ensures var q := Accept(EMPTY, SLOW, port, CallOrFail(server, -EIO));
            && q.owner == Some(0) && q.asked == [port] && q.order == [0]
            && q.jobs.Keys == {0} && q.jobs[0].state == NestedSend && q.jobs[0].server == server
            && q.slot == [Request(0, server, 1)] && q.outbox == []
  {
    var q0 := Create(EMPTY, port);
    IssueNestedIsOneCall(q0, SLOW, 0, server, MAX_TRIES);
    CallRuns(q0, SLOW, 0, server, -EIO);
  }

  lemma SecondFails(q: Queue, port: Port, server: Port)
    requires q.owner == Some(0) && |q.asked| == 1 && q.order == [0] && q.jobs.Keys == {0}
             && q.jobs[0].state == NestedSend
    ensures var q' := Accept(q, SLOW, port, CallOrFail(server, -EIO));
            1 in q'.jobs && q'.jobs[1].state == NeedReply && q'.jobs[1].result == -EIO && q'.owner == Some(0)
  {
    var q0 := Create(q, port);
    IssueNestedIsOneCall(q0, SLOW, 1, server, MAX_TRIES);
    var q1 := SetResult(q0, 1, -EIO);
    CallRuns(q0, SLOW, 1, server, -EIO);
    assert q1.order == [0, 1] && [0, 1][1..] == [1] && [1][1..] == [];
    var q2 := PollJob(q1, SLOW, 0);
    assert PollAll(q1, SLOW, [0, 1]) == PollAll(q2, SLOW, [1]) == PollAll(PollJob(q2, SLOW, 1), SLOW, []);
    assert PollJob(q2, SLOW, 1) == q2;
  }
}

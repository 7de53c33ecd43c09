/**
 Cooperative request-reply server: state and transitions.

 One listen thread serves many jobs.  Its send queue is a FIFO that is not
 sorted by destination, so the queue must hold at most one payload, owned by
 `owner`.  Answers of the core primitives (port lookup, allocation, try_send)
 come from an arbitrary oracle, and what the server's own code does with a job is
 a program over the two calls it has, so a result holds for every run of every
 server whose programs are in order.
 */
module CoopModel {
  import opened Common
  import opened Lists
  import opened Wrappers

  type Id = nat       // a job: the number of the request it serves
  type Port = string

  const MAX_TRIES: nat := 64

  // IPC_RPC_COOP_ST_*; Fresh is ST_NONE
  datatype JobState = Fresh | NeedReply | NestedSend | NestedRecv

  datatype Job = Job(
    state: JobState,
    replyPort: Port,
    result: int,
    server: Port,      // nested_server
    cookie: nat,       // nest_cookie; 0 when no nested request is open
    queued: bool)      // reply_payload_queued

  datatype Payload =
    | Reply(id: Id, port: Port, result: int)
    | Request(id: Id, server: Port, cookie: nat)
    | Direct(to: Port)      // of a blocking send, which belongs to no job

  function Dest(p: Payload): Port {
    match p
    case Reply(_, port, _) => port
    case Request(_, server, _) => server
    case Direct(to) => to
  }

  // A payload handed over at a port.
  datatype Sent = Sent(port: Port, payload: Payload)

  datatype Try = Success | Closed | Again | NoMsg | Error

  // What the core answers to the next primitive: is the port registered, is
  // there memory, how does try_send end, and is the payload gone after an error.
  datatype Answer = Answer(found: bool, room: bool, send: Try, lost: bool)

  type Oracle = nat -> Answer

  datatype Queue = Queue(
    jobs: map<Id, Job>,
    order: seq<Id>,            // q->jobs
    owner: Option<Id>,         // q->send_owner
    slot: seq<Payload>,        // send_msg_queue of the listen thread
    cookieSeq: nat,            // nest_cookie_seq
    asked: seq<Port>,          // history: the reply port of every request so far
    tick: nat,                 // position in the oracle
    outbox: seq<Sent>,         // history: everything delivered
    issuer: map<nat, Id>)      // history: the job a cookie was issued to

  const EMPTY := Queue(map[], [], None, [], 0, [], 0, [], map[])

  function SetJob(q: Queue, id: Id, j: Job): Queue {
    q.(jobs := q.jobs[id := j])
  }

  // ipc_rpc_abandon_current_send_payload
  function Abandon(slot: seq<Payload>): seq<Payload> {
    if |slot| > 0 then slot[1..] else slot
  }

  // ipc_rpc_coop_clear_send_owner
  function ClearOwner(q: Queue, id: Id): Queue
    requires id in q.jobs
  {
    if q.owner != Some(id) then q
    else if q.jobs[id].queued then SetJob(q, id, q.jobs[id].(queued := false)).(owner := None, slot := Abandon(q.slot))
    else q.(owner := None)
  }

  // ipc_rpc_coop_nested_clear
  function NestedClear(j: Job): Job {
    j.(cookie := 0, server := "")
  }

  // ipc_rpc_coop_job_set_result
  function SetResult(q: Queue, id: Id, result: int): Queue
    requires id in q.jobs
  {
    var q1 := ClearOwner(q, id);
    SetJob(q1, id, NestedClear(q1.jobs[id]).(result := result, state := NeedReply))
  }

  // ipc_rpc_coop_job_release
  function Release(q: Queue, id: Id): Queue
    requires id in q.jobs
  {
    var q1 := ClearOwner(q, id);
    q1.(jobs := q1.jobs - {id}, order := Without(q1.order, id))
  }

  // ipc_rpc_coop_job_create
  function Create(q: Queue, replyPort: Port): Queue {
    q.(jobs := q.jobs[|q.asked| := Job(Fresh, replyPort, 0, "", 0, false)],
       order := q.order + [|q.asked|],
       asked := q.asked + [replyPort])
  }

  function Ask(q: Queue, o: Oracle): Answer { o(q.tick) }

  function Tick(q: Queue): Queue { q.(tick := q.tick + 1) }

  // ipc_try_send_msg(port): on success the head of the FIFO goes to that port,
  // whatever job it belongs to; a closed port swallows it.
  function Send(q: Queue, port: Port, r: Try, lost: bool): Queue {
    if |q.slot| == 0 then q
    else
      match r
      case Success => q.(slot := q.slot[1..], outbox := q.outbox + [Sent(port, q.slot[0])])
      case Closed => q.(slot := q.slot[1..])
      case Again => q
      case _ => if lost then q.(slot := q.slot[1..]) else q
  }

  // After try_send of a nested request
  function AfterNestedSend(q: Queue, id: Id, r: Try): Queue
    requires id in q.jobs
  {
    match r
    case Success => SetJob(q, id, q.jobs[id].(queued := false, state := NestedRecv)).(owner := None)
    case Again => q
    case _ =>
      var q1 := ClearOwner(q, id);
      SetJob(q1, id, NestedClear(q1.jobs[id]).(state := Fresh))
  }

  // The request with the newest cookie is queued and sent.
  function PostRequest(q: Queue, id: Id, server: Port, a: Answer): (r: Queue)
    requires id in q.jobs
    ensures id in r.jobs
  {
    var j := q.jobs[id].(cookie := q.cookieSeq, server := server, queued := true, state := NestedSend);
    var q1 := SetJob(q, id, j).(owner := Some(id), slot := q.slot + [Request(id, server, q.cookieSeq)]);
    AfterNestedSend(Send(q1, server, a.send, a.lost), id, a.send)
  }

  // ipc_rpc_coop_nested_call_va on a job in state NONE.  Parked says that the
  // job now waits in NESTED_SEND or NESTED_RECV, Busy that another job owns the
  // send slot, Failed that the call failed for good.
  datatype CallResult = Parked | Busy | Failed

  function NestedCall(q: Queue, o: Oracle, id: Id, server: Port): (r: (Queue, CallResult))
    requires id in q.jobs
    ensures id in r.0.jobs
  {
    if q.owner.Some? && q.owner != Some(id) then (q, Busy)
    else
      var c := q.cookieSeq + 1;
      var a := Ask(q, o);
      var q1 := Tick(q).(cookieSeq := c, issuer := q.issuer[c := id]);
      if !a.found || !a.room then (SetJob(q1, id, NestedClear(q1.jobs[id])), Failed)
      else (PostRequest(q1, id, server, a), if a.send.Success? || a.send.Again? then Parked else Failed)
  }

  // vfs_coop_issue_nested: at most 64 attempts while the slot is busy
  function IssueNested(q: Queue, o: Oracle, id: Id, server: Port, tries: nat): (r: (Queue, bool))
    requires id in q.jobs
    ensures id in r.0.jobs
    decreases tries
  {
    if tries == 0 then (q, false)
    else
      var (q1, r) := NestedCall(q, o, id, server);
      match r
      case Parked => (q1, true)
      case Failed => (q1, false)
      case Busy => IssueNested(q, o, id, server, tries - 1)
  }

  // How a handler returns: IPC_RPC_COOP_HANDLED with its *result_out,
  // IPC_RPC_COOP_PARKED or IPC_RPC_COOP_REPLIED
  datatype Disp = Handled(result: int) | Parks | Replied

  // What the server's code does with a job in one call of the handler or of
  // resume_fn: any sequence of set_result and nested requests, where it sees
  // whether a request was accepted, and then a return.  Nothing here keeps a
  // program from returning too early or from going on too long.
  datatype Prog =
    | Return(disp: Disp)
    | Finish(result: int, rest: Prog)                    // ipc_rpc_coop_job_set_result
    | Issue(server: Port, parked: Prog, refused: Prog)   // vfs_coop_issue_nested

  function Exec(q: Queue, o: Oracle, id: Id, p: Prog): (r: (Queue, Disp))
    requires id in q.jobs
    ensures id in r.0.jobs
    decreases p
  {
    match p
    case Return(d) => (q, d)
    case Finish(r, next) => Exec(SetResult(q, id, r), o, id, next)
    case Issue(server, parked, refused) =>
      var (q1, ok) := IssueNested(q, o, id, server, MAX_TRIES);
      Exec(q1, o, id, if ok then parked else refused)
  }

  // vfs_coop_park_or_eio
  function CallOrFail(server: Port, err: int): Prog {
    Issue(server, Return(Parks), Finish(err, Return(Handled(0))))
  }

  // The reply of the job is in the slot: try_client_reply, second half
  function SendReply(q: Queue, o: Oracle, id: Id): (r: (Queue, bool))
    requires id in q.jobs
    ensures id in r.0.jobs
  {
    var b := Ask(q, o);
    var q0 := Tick(q);
    if !b.found then (ClearOwner(q0, id), true)
    else
      var q1 := Send(q0, q.jobs[id].replyPort, b.send, b.lost);
      match b.send
      case Success => (SetJob(q1, id, q1.jobs[id].(queued := false)).(owner := None), true)
      case Closed => (SetJob(q1, id, q1.jobs[id].(queued := false)).(owner := None), true)
      case Again => (q1, false)
      case _ => (ClearOwner(q1, id), false)
  }

  // Put the reply into the slot
  function QueueReply(q: Queue, id: Id): Queue
    requires id in q.jobs
  {
    var j := q.jobs[id];
    if j.queued then q
    else SetJob(q, id, j.(queued := true)).(owner := Some(id), slot := q.slot + [Reply(id, j.replyPort, j.result)])
  }

  // ipc_rpc_coop_try_client_reply; true means the job is done
  function TryReply(q: Queue, o: Oracle, id: Id): (r: (Queue, bool))
    requires id in q.jobs
    ensures id in r.0.jobs
  {
    if q.owner.Some? && q.owner != Some(id) then (q, false)
    else
      var a := Ask(q, o);
      if !q.jobs[id].queued && !a.found then (Tick(q), true)
      else if !q.jobs[id].queued && !a.room then (Tick(q), false)
      else SendReply(QueueReply(Tick(q), id), o, id)
  }

  // The body of the loop in ipc_rpc_coop_queue_poll
  function PollJob(q: Queue, o: Oracle, id: Id): Queue
    requires id in q.jobs
  {
    match q.jobs[id].state
    case NestedSend =>
      if q.owner != Some(id) then q
      else
        var a := Ask(q, o);
        var q0 := Tick(q);
        if !a.found then SetResult(q0, id, -EIO)
        else
          var q1 := Send(q0, q.jobs[id].server, a.send, a.lost);
          (match a.send
           case Success => AfterNestedSend(q1, id, Success)
           case Again => q1
           case _ => SetResult(q1, id, -EIO))
    case NeedReply =>
      var (q1, done) := TryReply(q, o, id);
      if done then Release(q1, id) else q1
    case _ => q
  }

  // list_for_each_safe over the jobs that were in the list at the start
  function PollAll(q: Queue, o: Oracle, ids: seq<Id>): Queue
    decreases |ids|
  {
    if ids == [] then q
    else PollAll(if ids[0] in q.jobs then PollJob(q, o, ids[0]) else q, o, ids[1..])
  }

  function Poll(q: Queue, o: Oracle): Queue {
    PollAll(q, o, q.order)
  }

  // The first job in the list that waits for this cookie
  function Waiting(q: Queue, ids: seq<Id>, cookie: nat): (r: Option<Id>)
    ensures r.Some? ==> r.value in q.jobs && r.value in ids
    ensures r.Some? ==> q.jobs[r.value].state == NestedRecv && q.jobs[r.value].cookie == cookie
    ensures r.None? ==> forall k :: k in ids && k in q.jobs && q.jobs[k].state == NestedRecv ==>
            q.jobs[k].cookie != cookie
  {
    if ids == [] then None
    else if ids[0] in q.jobs && q.jobs[ids[0]].state == NestedRecv && q.jobs[ids[0]].cookie == cookie then Some(ids[0])
    else Waiting(q, ids[1..], cookie)
  }

  // ipc_rpc_coop_try_apply_nest_resp; p is what resume_fn does
  function ApplyNestReply(q: Queue, o: Oracle, cookie: nat, p: Prog): Queue {
    match Waiting(q, q.order, cookie)
    case None => q
    case Some(id) => Exec(SetJob(q, id, NestedClear(q.jobs[id]).(state := Fresh)), o, id, p).0
  }

  // ipc_rpc_coop_accept_one on a well-formed request; p is what the handler does.
  // A request that ends at once is polled at once.
  function Accept(q: Queue, o: Oracle, replyPort: Port, p: Prog): Queue {
    var id := |q.asked|;
    var (q1, disp) := Exec(Create(q, replyPort), o, id, p);
    match disp
    case Replied => Release(q1, id)
    case Handled(r) => Poll(if q1.jobs[id].state == NeedReply then q1 else SetResult(q1, id, r), o)
    case Parks => q1
  }

  datatype Event =
    | Arrive(replyPort: Port, prog: Prog)
    | NestReply(cookie: nat, prog: Prog)
    | PollNow

  function Handle(q: Queue, o: Oracle, e: Event): Queue {
    match e
    case Arrive(port, p) => Accept(q, o, port, p)
    case NestReply(cookie, p) => ApplyNestReply(q, o, cookie, p)
    case PollNow => Poll(q, o)
  }

  // Any prefix of ipc_rpc_coop_server_loop
  function Serve(q: Queue, o: Oracle, events: seq<Event>): Queue
    decreases |events|
  {
    if events == [] then q else Serve(Handle(q, o, events[0]), o, events[1..])
  }

  // ---- programs in order

  // On every branch a job in state NONE is finished once or parked once, and
  // the return says which; a handler may leave the result to *result_out, or
  // have replied by itself.
  predicate InOrder(p: Prog, atStart: bool) {
    match p
    case Return(d) => atStart && !d.Parks?
    case Finish(_, next) => next.Return? && (atStart ==> next.disp.Handled?)
    case Issue(_, parked, refused) => parked.Return? && (atStart ==> parked.disp.Parks?) && InOrder(refused, atStart)
  }

  predicate Proper(events: seq<Event>) {
    forall i :: 0 <= i < |events| ==>
      && (events[i].Arrive? ==> InOrder(events[i].prog, true))
      && (events[i].NestReply? ==> InOrder(events[i].prog, false))
  }

  // What the client is told, if the call ends with an answer: accepted says
  // whether the requests it makes are.
  function Verdict(p: Prog, accepted: bool): Option<int> {
    match p
    case Return(d) => if d.Handled? then Some(d.result) else None
    case Finish(r, _) => Some(r)
    case Issue(_, _, refused) => if accepted then None else Verdict(refused, accepted)
  }
}

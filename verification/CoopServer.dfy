/**
 The cooperative server as it runs: job objects on a list, a pointer to the job
 that owns the send slot, and the two places where the listen thread keeps a
 payload.  Running its loop computes the transitions.
 */
module CoopServer {
  import opened Common
  import opened Lists
  import opened Wrappers
  import opened CoopModel

  // ipc_rpc_coop_job_t
  class Cell {
    const id: Id
    const replyPort: Port
    var state: JobState
    var result: int
    var server: Port
    var cookie: nat
    var queued: bool

    constructor (id: Id, replyPort: Port)
      ensures this.id == id && Value() == Job(Fresh, replyPort, 0, "", 0, false)
    {
      this.id, this.replyPort := id, replyPort;
      state, result, server, cookie, queued := Fresh, 0, "", 0, false;
    }

    ghost function Value(): Job reads this { Job(state, replyPort, result, server, cookie, queued) }
  }

  function Ids(cells: seq<Cell>): (r: seq<Id>)
    ensures |r| == |cells| && forall i :: 0 <= i < |cells| ==> r[i] == cells[i].id
  {
    seq(|cells|, i requires 0 <= i < |cells| => cells[i].id)
  }

  class Server {
    const core: Oracle
    var list: seq<Cell>               // q->jobs
    var sendOwner: Cell?              // q->send_owner
    var pending: Option<Payload>      // send_pending_msg of the listen thread
    var fifo: seq<Payload>            // its send_msg_queue
    var cookieSeq: nat
    var tick: nat
    var created: nat
    ghost var cells: map<Id, Cell>
    ghost var asked: seq<Port>
    ghost var outbox: seq<Sent>
    ghost var issuer: map<nat, Id>

    ghost predicate Has(c: Cell) reads this`cells { c.id in cells && cells[c.id] == c }

    // The list holds every job once.
    ghost predicate ListedIn(seal: Seal) reads this`list, this`cells, this`created, this`asked {
      && created == |asked| && Distinct(Ids(list))
      && (forall c :: c in list ==> Has(c))
      && (forall k :: k in cells ==> cells[k] in list && k < created)
    }

    ghost predicate Valid() reads this`list, this`cells, this`sendOwner, this`created, this`asked {
      && (forall k :: k in cells ==> cells[k].id == k)
      && (sendOwner != null ==> Has(sendOwner))
      && (forall seal: Seal :: ListedIn(seal))
    }

    ghost function Jobs(): map<Id, Job> reads this`cells, cells.Values { map k | k in cells :: cells[k].Value() }

    function Order(): seq<Id> reads this`list { Ids(list) }

    function Slot(): seq<Payload> reads this`pending, this`fifo {
      (if pending.Some? then [pending.value] else []) + fifo
    }

    function Owner(): Option<Id> reads this`sendOwner { if sendOwner == null then None else Some(sendOwner.id) }

    ghost function Abs(): Queue reads this, cells.Values {
      Queue(Jobs(), Order(), Owner(), Slot(), cookieSeq, asked, tick, outbox, issuer)
    }

    constructor (o: Oracle)
      ensures Valid() && Abs() == EMPTY && core == o && list == []
    {
      core := o;
      list, sendOwner, pending, fifo := [], null, None, [];
      cookieSeq, tick, created := 0, 0, 0;
      cells, asked, outbox, issuer := map[], [], [], map[];
    }

    // ipc_rpc_abandon_current_send_payload
    method AbandonPayload()
      requires Valid()
      modifies this`pending, this`fifo
      ensures Valid() && Abs() == old(Abs()).(slot := Abandon(old(Slot())))
    {
      if pending.Some? {
        pending := None;
      } else if |fifo| > 0 {
        fifo := fifo[1..];
      }
      assert Slot() == Abandon(old(Slot()));
    }

    // The job gives up its nested request and is in the given state.
    method Idle(c: Cell, state: JobState, result: int)
      requires Valid() && Has(c)
      modifies c
      ensures Valid() && Abs() == SetJob(old(Abs()), c.id,
              NestedClear(old(c.Value())).(state := state, result := result))
    {
      c.cookie, c.server, c.state, c.result := 0, "", state, result;
      assert Jobs() == old(Jobs())[c.id := c.Value()];
    }

    // The payload of the job has left the slot.
    method FreeSlot(c: Cell, state: JobState)
      requires Valid() && Has(c)
      modifies this`sendOwner, c
      ensures Valid() && Abs() == SetJob(old(Abs()), c.id,
              old(c.Value()).(queued := false, state := state)).(owner := None)
    {
      c.queued, c.state := false, state;
      sendOwner := null;
      assert Jobs() == old(Jobs())[c.id := c.Value()];
    }

    // ipc_rpc_coop_clear_send_owner
    method ClearSendOwner(c: Cell)
      requires Valid() && Has(c)
      modifies this`sendOwner, this`pending, this`fifo, c
      ensures Valid() && Abs() == ClearOwner(old(Abs()), c.id)
    {
      if sendOwner == c {
        if c.queued {
          AbandonPayload();
          c.queued := false;
        }
        sendOwner := null;
      }
      assert Jobs() == old(Jobs())[c.id := c.Value()];
    }

    // ipc_rpc_coop_job_set_result
    method JobSetResult(c: Cell, result: int)
      requires Valid() && Has(c)
      modifies this`sendOwner, this`pending, this`fifo, c
      ensures Valid() && Abs() == SetResult(old(Abs()), c.id, result)
    {
      ClearSendOwner(c);
      Idle(c, NeedReply, result);
    }

    // Where the job is on the list
    method IndexOf(c: Cell) returns (i: nat)
      requires Valid() && Has(c)
      ensures i < |list| && list[i] == c && Without(Order(), c.id) == Order()[..i] + Order()[i + 1..]
    {
      assert ListedIn(Seal);
      i := 0;
      while list[i] != c
        invariant i < |list| && c in list[i..]
        decreases |list| - i
      {
        i := i + 1;
      }
      WithoutAt(Order(), i);
    }

    // ipc_rpc_coop_job_release: the job leaves the list
    method JobRelease(c: Cell)
      requires Valid() && Has(c)
      modifies this`sendOwner, this`pending, this`fifo, this`list, this`cells, c
      ensures Valid() && Abs() == Release(old(Abs()), c.id)
      ensures cells == old(cells) - {c.id}
    {
      ClearSendOwner(c);
      var i := IndexOf(c);
      ghost var q := Abs();
      Unlink(c, i);
      assert Jobs() == q.jobs - {c.id};
    }

    // list_del_init
    method Unlink(c: Cell, i: nat)
      requires Valid() && Has(c) && i < |list| && list[i] == c && sendOwner != c
      modifies this`list, this`cells
      ensures Valid() && list == old(list)[..i] + old(list)[i + 1..] && cells == old(cells) - {c.id}
      ensures Order() == old(Order())[..i] + old(Order())[i + 1..]
    {
      assert ListedIn(Seal);
      Dropped(list, i);
      list := list[..i] + list[i + 1..];
      cells := cells - {c.id};
      assert ListedIn(Seal);
    }

    // ipc_rpc_coop_job_create
    method JobCreate(replyPort: Port) returns (c: Cell)
      requires Valid()
      modifies this`list, this`cells, this`created, this`asked
      ensures Valid() && Abs() == Create(old(Abs()), replyPort) && c.id == |old(asked)| && Has(c)
      ensures fresh(c) && cells == old(cells)[c.id := c]
    {
      c := new Cell(created, replyPort);
      assert created !in cells && created == |asked| by { assert ListedIn(Seal); }
      ghost var jobs, order := Jobs(), Order();
      Append(c, replyPort);
      assert Order() == order + [c.id];
      assert Jobs() == jobs[c.id := c.Value()];
    }

    // list_add_tail
    method Append(c: Cell, replyPort: Port)
      requires Valid() && c.id == created && created == |asked| && created !in cells
      modifies this`list, this`cells, this`created, this`asked
      ensures Valid() && list == old(list) + [c] && cells == old(cells)[c.id := c]
      ensures created == old(created) + 1 && asked == old(asked) + [replyPort]
    {
      assert ListedIn(Seal);
      Appended(list, c);
      list := list + [c];
      cells := cells[c.id := c];
      created, asked := created + 1, asked + [replyPort];
      assert ListedIn(Seal);
    }

    method TakeUp() returns (any: bool)
      requires Valid()
      modifies this`pending, this`fifo
      ensures Valid() && Abs() == old(Abs()) && any == (|Slot()| > 0) == pending.Some?
    {
      if pending.None? && |fifo| > 0 {
        pending, fifo := Some(fifo[0]), fifo[1..];
      }
      assert Slot() == old(Slot());
      any := pending.Some?;
    }

    // ipc_try_send_msg: the payload is taken from the FIFO first and stays in
    // send_pending_msg when it cannot be handed over
    method TrySend(port: Port, r: Try, lost: bool)
      requires Valid()
      modifies this`pending, this`fifo, this`outbox
      ensures Valid() && Abs() == Send(old(Abs()), port, r, lost)
    {
      var any := TakeUp();
      if !any {
        return;
      }
      assert Slot()[0] == pending.value && Slot()[1..] == fifo;
      if r.Success? {
        outbox := outbox + [Sent(port, pending.value)];
      }
      if r.Success? || r.Closed? || (!r.Again? && lost) {
        pending := None;
      }
    }

    method AskCore() returns (a: Answer)
      requires Valid()
      modifies this`tick
      ensures Valid() && Abs() == Tick(old(Abs())) && a == Ask(old(Abs()), core)
    {
      a := core(tick);
      tick := tick + 1;
    }

    // Common tail of a nested send
    method NestedSent(c: Cell, r: Try)
      requires Valid() && Has(c)
      modifies this`sendOwner, this`pending, this`fifo, c
      ensures Valid() && Abs() == AfterNestedSend(old(Abs()), c.id, r)
    {
      if r.Success? {
        FreeSlot(c, NestedRecv);
      } else if !r.Again? {
        ClearSendOwner(c);
        Idle(c, Fresh, c.result);
      }
    }

    method QueueRequest(c: Cell, server: Port)
      requires Valid() && Has(c)
      modifies this`sendOwner, this`fifo, c
      ensures Valid()
      ensures Abs() == SetJob(old(Abs()), c.id,
              old(c.Value()).(cookie := cookieSeq, server := server, queued := true, state := NestedSend))
                         .(owner := Some(c.id), slot := old(Slot()) + [Request(c.id, server, cookieSeq)])
    {
      c.cookie, c.server, c.queued, c.state := cookieSeq, server, true, NestedSend;
      fifo := fifo + [Request(c.id, server, cookieSeq)];
      sendOwner := c;
      assert Slot() == old(Slot()) + [Request(c.id, server, cookieSeq)];
      assert Jobs() == old(Jobs())[c.id := c.Value()];
    }

    method SendRequest(c: Cell, server: Port, a: Answer)
      requires Valid() && Has(c)
      modifies this`sendOwner, this`pending, this`fifo, this`outbox, c
      ensures Valid() && Abs() == PostRequest(old(Abs()), c.id, server, a)
    {
      QueueRequest(c, server);
      TrySend(server, a.send, a.lost);
      NestedSent(c, a.send);
    }

    // ipc_rpc_coop_nested_call_va
    method TryNestedCall(c: Cell, server: Port) returns (r: CallResult)
      requires Valid() && Has(c)
      modifies this`sendOwner, this`pending, this`fifo, this`cookieSeq, this`tick, this`outbox, this`issuer, c
      ensures Valid() && (Abs(), r) == NestedCall(old(Abs()), core, c.id, server)
    {
      if sendOwner != null && sendOwner != c {
        return Busy;
      }
      r := StartCall(c, server);
    }

    method TakeCookie(id: Id)
      requires Valid()
      modifies this`cookieSeq, this`issuer
      ensures Valid() && cookieSeq == old(cookieSeq) + 1
      ensures Abs() == old(Abs()).(cookieSeq := cookieSeq, issuer := old(issuer)[cookieSeq := id])
    {
      cookieSeq := cookieSeq + 1;
      issuer := issuer[cookieSeq := id];
    }

    method Refuse(c: Cell)
      requires Valid() && Has(c)
      modifies c
      ensures Valid() && Abs() == SetJob(old(Abs()), c.id, NestedClear(old(Abs()).jobs[c.id]))
    {
      Idle(c, c.state, c.result);
    }

    // The slot is free.
    method StartCall(c: Cell, server: Port) returns (r: CallResult)
      requires Valid() && Has(c) && (sendOwner == null || sendOwner == c)
      modifies this`sendOwner, this`pending, this`fifo, this`cookieSeq, this`tick, this`outbox, this`issuer, c
      ensures Valid() && (Abs(), r) == NestedCall(old(Abs()), core, c.id, server)
    {
      TakeCookie(c.id);
      var a := AskCore();
      if !a.found || !a.room {
        Refuse(c);
        return Failed;
      }
      SendRequest(c, server, a);
      r := if a.send.Success? || a.send.Again? then Parked else Failed;
    }

    // vfs_coop_issue_nested
    method TryIssueNested(c: Cell, server: Port) returns (parked: bool)
      requires Valid() && Has(c)
      modifies this`sendOwner, this`pending, this`fifo, this`cookieSeq, this`tick, this`outbox, this`issuer, c
      ensures Valid() && (Abs(), parked) == IssueNested(old(Abs()), core, c.id, server, MAX_TRIES)
    {
      var tries := MAX_TRIES;
      while tries > 0
        invariant Valid() && Has(c) && Abs() == old(Abs()) && c.id in Abs().jobs
        invariant IssueNested(old(Abs()), core, c.id, server, MAX_TRIES)
                  == IssueNested(Abs(), core, c.id, server, tries)
      {
        var r := TryNestedCall(c, server);
        if r != Busy {
          return r == Parked;
        }
        tries := tries - 1;
      }
      return false;
    }

    // One call of the handler or of resume_fn
    method Perform(c: Cell, p: Prog) returns (d: Disp)
      requires Valid() && Has(c)
      modifies this`sendOwner, this`pending, this`fifo, this`cookieSeq, this`tick, this`outbox, this`issuer, c
      ensures Valid() && (Abs(), d) == Exec(old(Abs()), core, c.id, p)
      decreases p
    {
      match p
      case Return(disp) => d := disp;
      case Finish(r, next) =>
        JobSetResult(c, r);
        d := Perform(c, next);
      case Issue(server, parked, refused) =>
        var ok := TryIssueNested(c, server);
        if ok {
          d := Perform(c, parked);
        } else {
          d := Perform(c, refused);
        }
    }

    // The second half of ipc_rpc_coop_try_client_reply
    method TrySendReply(c: Cell) returns (done: bool)
      requires Valid() && Has(c)
      modifies this`sendOwner, this`pending, this`fifo, this`tick, this`outbox, c
      ensures Valid() && (Abs(), done) == SendReply(old(Abs()), core, c.id)
    {
      var b := AskCore();
      if !b.found {
        ClearSendOwner(c);
        return true;
      }
      TrySend(c.replyPort, b.send, b.lost);
      if b.send.Success? || b.send.Closed? {
        FreeSlot(c, c.state);
        return true;
      }
      if !b.send.Again? {
        ClearSendOwner(c);
      }
      return false;
    }

    method QueueReplyOf(c: Cell)
      requires Valid() && Has(c)
      modifies this`sendOwner, this`fifo, c
      ensures Valid() && Abs() == QueueReply(old(Abs()), c.id)
    {
      if !c.queued {
        fifo := fifo + [Reply(c.id, c.replyPort, c.result)];
        c.queued := true;
        sendOwner := c;
        assert Slot() == old(Slot()) + [Reply(c.id, c.replyPort, c.result)];
        assert Jobs() == old(Jobs())[c.id := c.Value()];
      }
    }

    // ipc_rpc_coop_try_client_reply
    method TryClientReply(c: Cell) returns (done: bool)
      requires Valid() && Has(c)
      modifies this`sendOwner, this`pending, this`fifo, this`tick, this`outbox, c
      ensures Valid() && (Abs(), done) == TryReply(old(Abs()), core, c.id)
    {
      if sendOwner != null && sendOwner != c {
        return false;
      }
      var a := AskCore();
      if !c.queued && !a.found {
        return true;
      }
      if !c.queued && !a.room {
        return false;
      }
      QueueReplyOf(c);
      done := TrySendReply(c);
    }

    // A nested request that was not sent at once
    method PollSend(c: Cell)
      requires Valid() && Has(c) && c.state == NestedSend
      modifies this`sendOwner, this`pending, this`fifo, this`tick, this`outbox, c
      ensures Valid() && Abs() == PollJob(old(Abs()), core, c.id)
    {
      if sendOwner != c {
        return;
      }
      var a := AskCore();
      if !a.found {
        JobSetResult(c, -EIO);
        return;
      }
      TrySend(c.server, a.send, a.lost);
      if a.send.Success? {
        NestedSent(c, a.send);
      } else if !a.send.Again? {
        JobSetResult(c, -EIO);
      }
    }

    method PollOne(c: Cell)
      requires Valid() && Has(c)
      modifies this`sendOwner, this`pending, this`fifo, this`tick, this`outbox, this`list, this`cells, c
      ensures Valid() && Abs() == PollJob(old(Abs()), core, c.id)
      ensures cells == old(cells) || cells == old(cells) - {c.id}
    {
      match c.state
      case NestedSend => PollSend(c);
      case NeedReply =>
        var done := TryClientReply(c);
        if done {
          JobRelease(c);
        }
      case _ =>
    }

    // ipc_rpc_coop_queue_poll: the list loses members on the way
    method QueuePoll()
      requires Valid()
      modifies this`sendOwner, this`pending, this`fifo, this`tick, this`outbox, this`list, this`cells, cells.Values
      ensures Valid() && Abs() == Poll(old(Abs()), core)
      ensures forall k :: k in cells ==> k in old(cells) && cells[k] == old(cells)[k]
    {
      var all := list;
      assert forall j :: 0 <= j < |all| ==> Has(all[j]) by { assert ListedIn(Seal); }
      var i := 0;
      while i < |all|
        invariant i <= |all| && Valid()
        invariant forall k :: k in cells ==> k in old(cells) && cells[k] == old(cells)[k]
        invariant forall j :: i <= j < |all| && all[j].id in cells ==> cells[all[j].id] == all[j]
        invariant Poll(old(Abs()), core) == PollAll(Abs(), core, Ids(all)[i..])
      {
        assert Ids(all)[i..][1..] == Ids(all)[i + 1..];
        PollIfThere(all[i]);
        i := i + 1;
      }
    }

    method PollIfThere(c: Cell)
      requires Valid() && (c.id in cells ==> cells[c.id] == c)
      modifies this`sendOwner, this`pending, this`fifo, this`tick, this`outbox, this`list, this`cells, c
      ensures Valid() && Abs() == if c.id in old(Jobs()) then PollJob(old(Abs()), core, c.id) else old(Abs())
      ensures cells == old(cells) || cells == old(cells) - {c.id}
    {
      var here := OnList(c);
      if here {
        PollOne(c);
      }
    }

    // Whether the job is still there: in C the loop keeps the next job in hand
    method OnList(c: Cell) returns (here: bool)
      requires Valid()
      ensures here == (c.id in cells && cells[c.id] == c)
    {
      assert ListedIn(Seal);
      here := c in list;
    }

    // ipc_rpc_coop_try_apply_nest_resp
    method TryApplyNestReply(cookie: nat, p: Prog)
      requires Valid()
      modifies this`sendOwner, this`pending, this`fifo, this`cookieSeq, this`tick, this`outbox, this`issuer,
               cells.Values
      ensures Valid() && Abs() == ApplyNestReply(old(Abs()), core, cookie, p)
    {
      assert forall j :: 0 <= j < |list| ==> Has(list[j]) by { assert ListedIn(Seal); }
      var i := 0;
      while i < |list|
        invariant i <= |list| && Valid() && Abs() == old(Abs())
        invariant Waiting(Abs(), Order(), cookie) == Waiting(Abs(), Order()[i..], cookie)
      {
        assert Order()[i..][1..] == Order()[i + 1..];
        var c := list[i];
        if c.state == NestedRecv && c.cookie == cookie {
          Idle(c, Fresh, c.result);
          var d := Perform(c, p);
          return;
        }
        i := i + 1;
      }
    }

    // ipc_rpc_coop_accept_one
    method AcceptOne(replyPort: Port, p: Prog)
      requires Valid()
      modifies this, cells.Values
      ensures Valid() && Abs() == Accept(old(Abs()), core, replyPort, p)
      ensures forall k :: k in cells ==> (k in old(cells) && cells[k] == old(cells)[k]) || fresh(cells[k])
    {
      var c := JobCreate(replyPort);
      var d := Perform(c, p);
      if d.Replied? {
        JobRelease(c);
      } else if d.Handled? {
        Answered(c, d.result);
      }
    }

    // A request that is handled is answered at once, if the client is waiting.
    method Answered(c: Cell, result: int)
      requires Valid() && Has(c)
      modifies this`sendOwner, this`pending, this`fifo, this`tick, this`outbox, this`list, this`cells, cells.Values
      ensures Valid()
      ensures var q := old(Abs());
              Abs() == Poll(if q.jobs[c.id].state == NeedReply then q else SetResult(q, c.id, result), core)
      ensures forall k :: k in cells ==> k in old(cells) && cells[k] == old(cells)[k]
    {
      if c.state != NeedReply {
        JobSetResult(c, result);
      }
      QueuePoll();
    }

    method HandleOne(e: Event)
      requires Valid()
      modifies this, cells.Values
      ensures Valid() && Abs() == Handle(old(Abs()), core, e)
      ensures forall k :: k in cells ==> (k in old(cells) && cells[k] == old(cells)[k]) || fresh(cells[k])
    {
      match e
      case Arrive(port, p) => AcceptOne(port, p);
      case NestReply(cookie, p) => TryApplyNestReply(cookie, p);
      case PollNow => QueuePoll();
    }

    // ipc_rpc_coop_server_loop.  Started on a new object it ends in
    // CoopTheorems.Reached.
    method Loop(events: seq<Event>)
      requires Valid()
      modifies this, cells.Values
      ensures Valid() && Abs() == Serve(old(Abs()), core, events)
    {
      var i := 0;
      while i < |events|
        invariant i <= |events| && Valid()
        invariant forall k :: k in cells ==> (k in old(cells) && cells[k] == old(cells)[k]) || fresh(cells[k])
        invariant Serve(old(Abs()), core, events) == Serve(Abs(), core, events[i..])
      {
        assert events[i..][1..] == events[i + 1..];
        HandleOne(events[i]);
        i := i + 1;
      }
    }
  }

  // What is left of a list without repetition when one member goes
  lemma {:induction false} WithoutAt(ids: seq<Id>, i: nat)
    requires i < |ids| && Distinct(ids)
    ensures Without(ids, ids[i]) == ids[..i] + ids[i + 1..]
  {
    if i > 0 {
      assert Distinct(ids[1..]) && ids[1..][i - 1] == ids[i] && ids[0] != ids[i];
      WithoutAt(ids[1..], i - 1);
      assert ids[..i] == [ids[0]] + ids[1..][..i - 1] && ids[1..][i..] == ids[i + 1..];
    }
  }

  // Taking one job off the list
  lemma Dropped(cells: seq<Cell>, i: nat)
    requires i < |cells| && Distinct(Ids(cells))
    ensures var rest := cells[..i] + cells[i + 1..];
            && Distinct(Ids(rest)) && Ids(rest) == Ids(cells)[..i] + Ids(cells)[i + 1..]
            && (forall x :: x in rest ==> x in cells && x.id != cells[i].id)
            && (forall x :: x in cells && x != cells[i] ==> x in rest)
  {
    var rest := cells[..i] + cells[i + 1..];
    forall j | 0 <= j < |rest| ensures rest[j].id != cells[i].id && rest[j] in cells {
      assert rest[j] == cells[if j < i then j else j + 1];
      assert Ids(cells)[j] != Ids(cells)[i] || j >= i;
    }
    forall x | x in cells && x != cells[i] ensures x in rest {
      var j :| 0 <= j < |cells| && cells[j] == x;
      assert rest[if j < i then j else j - 1] == x;
    }
  }

  lemma Appended(cells: seq<Cell>, c: Cell)
    requires Distinct(Ids(cells)) && forall x :: x in cells ==> x.id != c.id
    ensures Distinct(Ids(cells + [c])) && Ids(cells + [c]) == Ids(cells) + [c.id]
  {
  }
}

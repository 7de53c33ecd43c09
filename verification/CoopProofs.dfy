/**
 The send slot, cookies and replies of the cooperative server, for every run.
 */
module CoopProofs {
  import opened Common
  import opened Lists
  import opened Wrappers
  import opened CoopModel

  predicate Nested(st: JobState) { st == NestedSend || st == NestedRecv }

  // The list holds every job once.
  ghost predicate ListOk(q: Queue) {
    && (forall k :: k in q.order <==> k in q.jobs)
    && (forall k :: k in q.jobs ==> k < |q.asked| && q.jobs[k].replyPort == q.asked[k])
    && Distinct(q.order)
  }

  // The payload a job wants delivered.
  ghost predicate Wants(j: Job, id: Id, p: Payload) {
    match j.state
    case NeedReply => p == Reply(id, j.replyPort, j.result)
    case NestedSend => p == Request(id, j.server, j.cookie)
    case _ => false
  }

  // A payload is queued exactly when its job owns the slot, it is the only one,
  // and every job in NESTED_SEND is that owner.
  ghost predicate SlotOk(q: Queue) {
    && (forall k :: k in q.jobs ==> (q.jobs[k].queued <==> q.owner == Some(k)))
    && (forall k :: k in q.jobs && q.jobs[k].state == NestedSend ==> q.owner == Some(k))
    && (q.owner.None? ==> q.slot == [])
    && (q.owner.Some? ==> q.owner.value in q.jobs && |q.slot| == 1
                          && Wants(q.jobs[q.owner.value], q.owner.value, q.slot[0]))
  }

  // Open cookies are fresh and belong to the job they were issued to.
  ghost predicate CookiesOk(q: Queue) {
    && (forall k :: k in q.jobs ==> (Nested(q.jobs[k].state) <==> q.jobs[k].cookie != 0))
    && (forall k :: k in q.jobs && q.jobs[k].cookie != 0 ==>
          q.jobs[k].cookie in q.issuer && q.issuer[q.jobs[k].cookie] == k)
    && (forall c :: c in q.issuer ==> 0 < c <= q.cookieSeq)
  }

  // Every payload reached its own destination, a reply the port its request
  // named; nobody was answered twice, and nobody in keys was answered at all.
  ghost predicate Posted(outbox: seq<Sent>, keys: set<Id>, asked: seq<Port>) {
    && (forall i :: 0 <= i < |outbox| ==>
          && outbox[i].port == Dest(outbox[i].payload)
          && (!outbox[i].payload.Direct? ==> outbox[i].payload.id < |asked|))
    && (forall i :: 0 <= i < |outbox| && outbox[i].payload.Reply? ==>
          outbox[i].payload.id !in keys && outbox[i].port == asked[outbox[i].payload.id])
    && (forall i, j :: 0 <= i < j < |outbox| && outbox[i].payload.Reply? && outbox[j].payload.Reply? ==>
          outbox[i].payload.id != outbox[j].payload.id)
  }

  ghost predicate OutboxOk(q: Queue) {
    Posted(q.outbox, q.jobs.Keys, q.asked)
  }

  // Every request that was delivered carries the cookie of the job that sent it.
  ghost predicate RequestsOk(q: Queue) {
    forall i :: 0 <= i < |q.outbox| && q.outbox[i].payload.Request? ==>
      q.outbox[i].payload.cookie in q.issuer && q.issuer[q.outbox[i].payload.cookie] == q.outbox[i].payload.id
  }

  datatype Part = PList | PSlot | PCookies | POutbox | PRequests

  ghost predicate Holds(part: Part, q: Queue) {
    match part
    case PList => ListOk(q)
    case PSlot => SlotOk(q)
    case PCookies => CookiesOk(q)
    case POutbox => OutboxOk(q)
    case PRequests => RequestsOk(q)
  }

  // Quantifying over the parts keeps them out of proofs that need none of them.
  ghost predicate Sound(q: Queue) {
    forall part :: Holds(part, q)
  }

  // No job but `running` is in state NONE.
  ghost predicate Settled(q: Queue, running: Option<Id>) {
    forall k :: k in q.jobs && q.jobs[k].state == Fresh ==> running == Some(k)
  }

  lemma Unfold(q: Queue)
    requires Sound(q)
    ensures ListOk(q) && SlotOk(q) && CookiesOk(q) && OutboxOk(q) && RequestsOk(q)
  {
    assert Holds(PList, q) && Holds(PSlot, q) && Holds(PCookies, q) && Holds(POutbox, q) && Holds(PRequests, q);
  }

  lemma Fold(q: Queue)
    requires ListOk(q) && SlotOk(q) && CookiesOk(q) && OutboxOk(q) && RequestsOk(q)
    ensures Sound(q)
  {
  }

  // q' differs from q in the record of id alone.
  ghost predicate OnlyJob(q: Queue, q': Queue, id: Id) {
    && q'.order == q.order && q'.asked == q.asked
    && q'.jobs.Keys == q.jobs.Keys
    && (forall k :: k in q.jobs && k != id ==> q'.jobs[k] == q.jobs[k])
  }

  lemma ListKept(q: Queue, q': Queue, id: Id)
    requires ListOk(q) && OnlyJob(q, q', id)
    requires id in q.jobs ==> q'.jobs[id].replyPort == q.jobs[id].replyPort
    ensures ListOk(q')
  {
  }

  lemma CookiesKept(q: Queue, q': Queue, id: Id)
    requires CookiesOk(q) && OnlyJob(q, q', id) && id in q.jobs
    requires q'.cookieSeq == q.cookieSeq && q'.issuer == q.issuer
    requires Nested(q'.jobs[id].state) <==> q'.jobs[id].cookie != 0
    requires q'.jobs[id].cookie == q.jobs[id].cookie || q'.jobs[id].cookie == 0
    ensures CookiesOk(q')
  {
  }

  lemma SettledKept(q: Queue, q': Queue, id: Id, running: Option<Id>)
    requires Settled(q, Some(id)) && OnlyJob(q, q', id) && id in q.jobs
    requires q'.jobs[id].state != Fresh || running == Some(id)
    ensures Settled(q', running)
  {
  }

  // ---- set_result

  lemma ClearSlot(q: Queue, id: Id)
    requires id in q.jobs
    requires forall k :: k in q.jobs ==> (q.jobs[k].queued <==> q.owner == Some(k))
    requires q.owner == Some(id) ==> |q.slot| <= 1
    ensures OnlyJob(q, ClearOwner(q, id), id)
    ensures var q1 := ClearOwner(q, id);
            && q1.jobs[id] == q.jobs[id].(queued := false)
            && (q.owner == Some(id) ==> q1.owner == None && q1.slot == [])
            && (q.owner != Some(id) ==> q1.owner == q.owner && q1.slot == q.slot)
            && q1.outbox == q.outbox && q1.cookieSeq == q.cookieSeq && q1.issuer == q.issuer && q1.tick == q.tick
  {
    if q.owner != Some(id) {
      assert q.jobs[id] == q.jobs[id].(queued := false);
    }
  }

  // The slot as it is in the middle of a failed send: right but for the payload.
  ghost predicate SlotNearly(q: Queue, id: Id) {
    && (forall k :: k in q.jobs ==> (q.jobs[k].queued <==> q.owner == Some(k)))
    && (forall k :: k in q.jobs && k != id && q.jobs[k].state == NestedSend ==> q.owner == Some(k))
    && (q.owner.None? ==> q.slot == [])
    && (q.owner.Some? ==> q.owner.value in q.jobs && |q.slot| <= 1)
    && (q.owner.Some? && q.owner.value != id ==>
        |q.slot| == 1 && Wants(q.jobs[q.owner.value], q.owner.value, q.slot[0]))
  }

  lemma SlotIsNearly(q: Queue, id: Id)
    requires SlotOk(q)
    ensures SlotNearly(q, id)
  {
  }

  lemma SetResultSlot(q: Queue, id: Id, r: int)
    requires id in q.jobs && SlotNearly(q, id)
    ensures SlotOk(SetResult(q, id, r)) && OnlyJob(q, SetResult(q, id, r), id)
    ensures var q' := SetResult(q, id, r);
            && q'.jobs[id] == NestedClear(q.jobs[id]).(queued := false, result := r, state := NeedReply)
            && q'.outbox == q.outbox && q'.cookieSeq == q.cookieSeq && q'.issuer == q.issuer
  {
    ClearSlot(q, id);
  }

  // Sound but for the payload of a failed send of job id.
  ghost predicate NearlySound(q: Queue, id: Id) {
    ListOk(q) && SlotNearly(q, id) && CookiesOk(q) && OutboxOk(q) && RequestsOk(q)
  }

  lemma SetResultSound(q: Queue, id: Id, r: int)
    requires id in q.jobs && NearlySound(q, id)
    ensures Sound(SetResult(q, id, r)) && OnlyJob(q, SetResult(q, id, r), id)
    ensures SetResult(q, id, r).jobs[id].state == NeedReply
  {
    var q' := SetResult(q, id, r);
    SetResultSlot(q, id, r);
    ListKept(q, q', id);
    CookiesKept(q, q', id);
    Fold(q');
  }

  // ---- try_send

  lemma SendPosts(q: Queue, id: Id, port: Port, r: Try, lost: bool)
    requires SlotOk(q) && OutboxOk(q) && q.owner == Some(id) && ListOk(q)
    requires port == Dest(q.slot[0])
    ensures var q' := Send(q, port, r, lost);
            && Posted(q'.outbox, if r.Success? && q.slot[0].Reply? then q.jobs.Keys - {id} else q.jobs.Keys, q.asked)
            && q' == q.(slot := q'.slot, outbox := q'.outbox)
            && (r.Again? ==> q' == q)
            && (r.Success? || r.Closed? ==> q'.slot == [])
            && |q'.slot| <= 1
            && (RequestsOk(q) && CookiesOk(q) ==> RequestsOk(q'))
  {
  }

  // ---- nested requests

  // The state right after the request of job id was queued.
  function Queued(q: Queue, id: Id, server: Port): Queue
    requires id in q.jobs
  {
    var c := q.cookieSeq + 1;
    var q1 := Tick(q).(cookieSeq := c, issuer := q.issuer[c := id]);
    SetJob(q1, id, q1.jobs[id].(cookie := c, server := server, queued := true, state := NestedSend))
      .(owner := Some(id), slot := q1.slot + [Request(id, server, c)])
  }

  lemma FreshOwnsNothing(q: Queue, id: Id)
    requires SlotOk(q) && id in q.jobs && q.jobs[id].state == Fresh
    ensures q.owner != Some(id) && !q.jobs[id].queued
  {
  }

  lemma QueuedSound(q: Queue, id: Id, server: Port)
    requires Sound(q) && id in q.jobs && q.jobs[id].state == Fresh && q.owner.None?
    ensures Sound(Queued(q, id, server)) && OnlyJob(q, Queued(q, id, server), id)
  {
    Unfold(q);
    var q' := Queued(q, id, server);
    ListKept(q, q', id);
    QueuedCookies(q, id, server);
    assert SlotOk(q');
    assert OutboxOk(q');
    Fold(q');
  }

  lemma QueuedCookies(q: Queue, id: Id, server: Port)
    requires CookiesOk(q) && id in q.jobs && q.jobs[id].state == Fresh
    ensures CookiesOk(Queued(q, id, server))
  {
  }

  // After a send that failed for good the job is back in state NONE.
  lemma SendFailedSound(q: Queue, id: Id, r: Try, lost: bool)
    requires Sound(q) && id in q.jobs && q.jobs[id].state == NestedSend && !r.Success? && !r.Again?
    ensures var q' := AfterNestedSend(Send(q, q.jobs[id].server, r, lost), id, r);
            Sound(q') && OnlyJob(q, q', id) && q'.jobs[id].state == Fresh && q'.owner.None?
  {
    Unfold(q);
    var q1 := Send(q, q.jobs[id].server, r, lost);
    SendPosts(q, id, q.jobs[id].server, r, lost);
    ClearSlot(q1, id);
    var q' := AfterNestedSend(q1, id, r);
    ListKept(q, q', id);
    CookiesKept(q, q', id);
    assert SlotOk(q');
    Fold(q');
  }

  // A delivered request frees the slot and leaves the job waiting.
  lemma SendDoneSound(q: Queue, id: Id, lost: bool)
    requires Sound(q) && id in q.jobs && q.jobs[id].state == NestedSend
    ensures var q' := AfterNestedSend(Send(q, q.jobs[id].server, Success, lost), id, Success);
            && Sound(q') && OnlyJob(q, q', id) && q'.jobs[id].state == NestedRecv && q'.owner.None?
            && q'.outbox == q.outbox + [Sent(q.jobs[id].server, Request(id, q.jobs[id].server, q.jobs[id].cookie))]
  {
    Unfold(q);
    var q1 := Send(q, q.jobs[id].server, Success, lost);
    SendPosts(q, id, q.jobs[id].server, Success, lost);
    var q' := AfterNestedSend(q1, id, Success);
    ListKept(q, q', id);
    CookiesKept(q, q', id);
    assert SlotOk(q');
    Fold(q');
  }

  lemma NestedCallSound(q: Queue, o: Oracle, id: Id, server: Port)
    requires Sound(q) && id in q.jobs && q.jobs[id].state == Fresh
    ensures var (q', r) := NestedCall(q, o, id, server);
            && Sound(q') && OnlyJob(q, q', id)
            && (r == Parked ==> Nested(q'.jobs[id].state))
            && (r == Busy <==> q.owner.Some?) && (r == Busy ==> q' == q)
            && (r == Failed ==> q'.jobs[id].state == Fresh)
  {
    assert SlotOk(q) by { Unfold(q); }
    FreshOwnsNothing(q, id);
    if q.owner.None? {
      var a := Ask(q, o);
      if !a.found || !a.room {
        EarlyFailSound(q, id);
      } else {
        QueuedSound(q, id, server);
        var q2 := Queued(q, id, server);
        if a.send.Success? {
          SendDoneSound(q2, id, a.lost);
        } else if a.send.Again? {
          assert AfterNestedSend(Send(q2, server, Again, a.lost), id, Again) == q2;
        } else {
          SendFailedSound(q2, id, a.send, a.lost);
        }
      }
    }
  }

  lemma EarlyFailSound(q: Queue, id: Id)
    requires Sound(q) && id in q.jobs && q.jobs[id].state == Fresh
    ensures var c := q.cookieSeq + 1;
            var q1 := Tick(q).(cookieSeq := c, issuer := q.issuer[c := id]);
            var q' := SetJob(q1, id, NestedClear(q1.jobs[id]));
            Sound(q') && OnlyJob(q, q', id) && q'.jobs[id].state == Fresh
  {
    Unfold(q);
    var c := q.cookieSeq + 1;
    var q1 := Tick(q).(cookieSeq := c, issuer := q.issuer[c := id]);
    var q' := SetJob(q1, id, NestedClear(q1.jobs[id]));
    ListKept(q, q', id);
    assert CookiesOk(q');
    assert SlotOk(q');
    Fold(q');
  }

  // The retry loop never sees a busy slot become free: the only thread that
  // frees it is the one that is retrying.
  lemma {:induction false} IssueNestedIsOneCall(q: Queue, o: Oracle, id: Id, server: Port, tries: nat)
    requires id in q.jobs && tries > 0
    ensures var (q', r) := NestedCall(q, o, id, server);
            IssueNested(q, o, id, server, tries) == if r == Busy then (q, false) else (q', r == Parked)
  {
    if tries > 1 && NestedCall(q, o, id, server).1 == Busy {
      IssueNestedIsOneCall(q, o, id, server, tries - 1);
    }
  }

  // Set_result on a job that owes nothing yet
  lemma FinishSound(q: Queue, id: Id, r: int)
    requires Sound(q) && Settled(q, Some(id)) && id in q.jobs
    ensures var q' := SetResult(q, id, r);
            && Sound(q') && OnlyJob(q, q', id) && Settled(q', None)
            && q'.jobs[id].state == NeedReply && q'.jobs[id].result == r && q'.jobs[id].cookie == 0
  {
    Nearly(q, id);
    SetResultSound(q, id, r);
    assert SetResult(q, id, r).jobs[id].result == r by { ClearSlotOf(q, id); }
    SettledKept(q, SetResult(q, id, r), id, None);
  }

  // One attempt at a nested request, as the retry loop leaves it
  lemma IssueSound(q: Queue, o: Oracle, id: Id, server: Port)
    requires Sound(q) && Settled(q, Some(id)) && id in q.jobs && q.jobs[id].state == Fresh
    ensures var (q', ok) := IssueNested(q, o, id, server, MAX_TRIES);
            && Sound(q') && OnlyJob(q, q', id)
            && (ok ==> Nested(q'.jobs[id].state) && Settled(q', None))
            && (!ok ==> q'.jobs[id].state == Fresh && Settled(q', Some(id)))
            && (q.owner.Some? ==> !ok && q' == q)
  {
    NestedCallSound(q, o, id, server);
    IssueNestedIsOneCall(q, o, id, server, MAX_TRIES);
    var (q', ok) := IssueNested(q, o, id, server, MAX_TRIES);
    SettledKept(q, q', id, if ok then None else Some(id));
  }

  lemma CallRuns(q: Queue, o: Oracle, id: Id, server: Port, err: int)
    requires id in q.jobs
    ensures var (q1, ok) := IssueNested(q, o, id, server, MAX_TRIES);
            Exec(q, o, id, CallOrFail(server, err)) == if ok then (q1, Parks) else (SetResult(q1, id, err), Handled(0))
  {
    var (q1, ok) := IssueNested(q, o, id, server, MAX_TRIES);
    assert Exec(q1, o, id, Return(Parks)) == (q1, Parks);
    assert Exec(q1, o, id, Finish(err, Return(Handled(0)))) == Exec(SetResult(q1, id, err), o, id, Return(Handled(0)));
  }

  // What a program in order leaves behind: the job is parked, or it owes the
  // verdict, or the caller will finish it.
  ghost predicate Left(q: Queue, id: Id, p: Prog, d: Disp, atStart: bool) {
    && id in q.jobs
    && (Nested(q.jobs[id].state) ==> p.Issue? && Settled(q, None) && (atStart ==> d.Parks?))
    && (q.jobs[id].state == NeedReply ==>
          && Settled(q, None) && (atStart ==> d.Handled?) && Verdict(p, false).Some?
          && q.jobs[id].result == Verdict(p, false).value)
    && (q.jobs[id].state == Fresh ==>
            Settled(q, Some(id)) && atStart && !d.Parks? && (d.Handled? ==> Verdict(p, false) == Some(d.result)))
  }

  // A program in order, whatever the core answers: one finish or one park.
  lemma {:induction false} ExecSound(q: Queue, o: Oracle, id: Id, p: Prog, atStart: bool)
    requires Sound(q) && Settled(q, Some(id)) && id in q.jobs && q.jobs[id].state == Fresh && InOrder(p, atStart)
    ensures var (q', d) := Exec(q, o, id, p);
            Sound(q') && OnlyJob(q, q', id) && Left(q', id, p, d, atStart)
    decreases p
  {
    match p {
      case Return(d) =>
      case Finish(r, next) => FinishSound(q, id, r);
      case Issue(server, parked, refused) =>
        IssueSound(q, o, id, server);
        var (q1, ok) := IssueNested(q, o, id, server, MAX_TRIES);
        if !ok {
          ExecSound(q1, o, id, refused, atStart);
        }
    }
  }

  lemma Nearly(q: Queue, id: Id)
    requires Sound(q)
    ensures NearlySound(q, id)
  {
    Unfold(q);
    SlotIsNearly(q, id);
  }

  lemma ClearSlotOf(q: Queue, id: Id)
    requires Sound(q) && id in q.jobs
    ensures ClearOwner(q, id).jobs[id] == q.jobs[id].(queued := false)
  {
    Unfold(q);
    ClearSlot(q, id);
  }

  // ---- replies

  lemma QueueReplySound(q: Queue, id: Id)
    requires Sound(q) && id in q.jobs && q.jobs[id].state == NeedReply && (q.owner.None? || q.owner == Some(id))
    ensures var q' := QueueReply(q, id);
            && Sound(q') && OnlyJob(q, q', id) && q'.owner == Some(id)
            && q'.jobs[id] == q.jobs[id].(queued := true)
            && q'.slot == [Reply(id, q.jobs[id].replyPort, q.jobs[id].result)]
  {
    Unfold(q);
    var q' := QueueReply(q, id);
    if q.jobs[id].queued {
      assert q.jobs[id] == q.jobs[id].(queued := true);
    } else {
      ListKept(q, q', id);
      CookiesKept(q, q', id);
      assert SlotOk(q');
      Fold(q');
    }
  }

  // Everything is in place for the job to be dropped.
  ghost predicate Releasable(q: Queue, id: Id) {
    && ListOk(q) && SlotOk(q) && CookiesOk(q) && RequestsOk(q)
    && id in q.jobs && q.owner != Some(id)
    && Posted(q.outbox, q.jobs.Keys - {id}, q.asked)
  }

  lemma SoundReleasable(q: Queue, id: Id)
    requires Sound(q) && id in q.jobs && q.owner != Some(id)
    ensures Releasable(q, id)
  {
    Unfold(q);
  }

  // The reply of job id is gone, one way or another.
  function Freed(q: Queue, id: Id): Queue
    requires id in q.jobs
  {
    SetJob(q, id, q.jobs[id].(queued := false)).(owner := None, slot := [])
  }

  lemma FreedSlot(q: Queue, q1: Queue, id: Id)
    requires SlotOk(q) && id in q.jobs && q.jobs[id].state == NeedReply && q.owner == Some(id)
    requires q1.jobs == q.jobs && q1.order == q.order && q1.asked == q.asked
    ensures SlotOk(Freed(q1, id)) && OnlyJob(q, Freed(q1, id), id)
  {
  }

  lemma ReplyGone(q: Queue, id: Id, r: Try, lost: bool)
    requires Sound(q) && id in q.jobs && q.jobs[id].state == NeedReply && q.owner == Some(id) && !r.Again?
    ensures var q' := Freed(Send(q, q.jobs[id].replyPort, r, lost), id);
            && OnlyJob(q, q', id) && Releasable(q', id)
            && (!r.Success? ==> Sound(q'))
            && q'.jobs[id].state == NeedReply
  {
    Unfold(q);
    var q1 := Send(q, q.jobs[id].replyPort, r, lost);
    SendPosts(q, id, q.jobs[id].replyPort, r, lost);
    FreedSlot(q, q1, id);
    var q' := Freed(q1, id);
    ListKept(q, q', id);
    CookiesKept(q, q', id);
    if !r.Success? {
      Fold(q');
    }
  }

  lemma TickSound(q: Queue)
    requires Sound(q)
    ensures Sound(Tick(q))
  {
    Unfold(q);
    Fold(Tick(q));
  }

  lemma OwnerQueued(q: Queue, id: Id)
    requires Sound(q) && id in q.jobs
    ensures q.jobs[id].queued <==> q.owner == Some(id)
    ensures q.owner == Some(id) ==> |q.slot| == 1
  {
    Unfold(q);
  }

  // Clearing the owner and a successful send leave the same slot.
  lemma ClearIsFreed(q: Queue, q1: Queue, id: Id)
    requires id in q.jobs && q1.jobs == q.jobs && q1.owner == q.owner == Some(id) && q.jobs[id].queued && |q1.slot| <= 1
    ensures ClearOwner(q1, id) == Freed(q1, id)
  {
    assert Abandon(q1.slot) == [];
  }

  lemma SendReplySound(q: Queue, o: Oracle, id: Id)
    requires Sound(q) && id in q.jobs && q.jobs[id].state == NeedReply && q.owner == Some(id)
    ensures var (q', done) := SendReply(q, o, id);
            && OnlyJob(q, q', id) && q'.jobs[id].state == NeedReply
            && (if done then Releasable(q', id) else Sound(q'))
  {
    var b, q0 := Ask(q, o), Tick(q);
    TickSound(q);
    OwnerQueued(q0, id);
    if !b.found {
      ReplyGone(q0, id, Error, false);
      ClearIsFreed(q0, q0, id);
    } else if !b.send.Again? {
      ReplyGone(q0, id, b.send, b.lost);
      var q1 := Send(q0, q0.jobs[id].replyPort, b.send, b.lost);
      assert q0.slot[1..] == [];
      ClearIsFreed(q0, q1, id);
    }
  }

  lemma TryReplySound(q: Queue, o: Oracle, id: Id)
    requires Sound(q) && id in q.jobs && q.jobs[id].state == NeedReply
    ensures var (q', done) := TryReply(q, o, id);
            && OnlyJob(q, q', id) && q'.jobs[id].state == NeedReply
            && (if done then Releasable(q', id) else Sound(q'))
  {
    OwnerQueued(q, id);
    if q.owner.None? || q.owner == Some(id) {
      TickSound(q);
      if !q.jobs[id].queued && (!Ask(q, o).found || !Ask(q, o).room) {
        SoundReleasable(Tick(q), id);
      } else {
        QueueReplySound(Tick(q), id);
        SendReplySound(QueueReply(Tick(q), id), o, id);
      }
    }
  }

  // ---- release

  lemma ReleaseSound(q: Queue, id: Id)
    requires Releasable(q, id)
    ensures Sound(Release(q, id))
  {
    var q' := Release(q, id);
    WithoutIs(q.order, id);
    assert ListOk(q');
    assert SlotOk(q');
    assert CookiesOk(q');
    assert q'.jobs.Keys == q.jobs.Keys - {id};
    Fold(q');
  }

  // ---- poll

  // A poll may release job id or move it on; every other job is untouched.
  ghost predicate Polled(q: Queue, q': Queue, id: Id) {
    && q'.asked == q.asked
    && q'.jobs.Keys <= q.jobs.Keys && q.jobs.Keys - {id} <= q'.jobs.Keys
    && (forall k :: k in q'.jobs && k != id ==> q'.jobs[k] == q.jobs[k])
  }

  lemma PollJobSound(q: Queue, o: Oracle, id: Id)
    requires Sound(q) && Settled(q, None) && id in q.jobs
    ensures var q' := PollJob(q, o, id);
            Sound(q') && Settled(q', None) && Polled(q, q', id)
  {
    match q.jobs[id].state {
      case NestedSend =>
        NestedSendOwns(q, id);
        TickSound(q);
        if !Ask(q, o).found {
          Nearly(Tick(q), id);
          PollGivesUp(Tick(q), Tick(q), id);
        } else if !Ask(q, o).send.Again? {
          PollSend(Tick(q), id, Ask(q, o));
        }
      case NeedReply =>
        TryReplySound(q, o, id);
        var (q1, done) := TryReply(q, o, id);
        if done {
          ReleaseSound(q1, id);
          assert Release(q1, id).jobs == q1.jobs - {id};
        }
      case _ =>
    }
  }

  // The test that skips a NESTED_SEND job without the slot never applies.
  lemma NestedSendOwns(q: Queue, id: Id)
    requires Sound(q) && id in q.jobs && q.jobs[id].state == NestedSend
    ensures q.owner == Some(id)
  {
    Unfold(q);
  }

  // A poll of a NESTED_SEND job that ends with -EIO.
  lemma PollGivesUp(q: Queue, q1: Queue, id: Id)
    requires Settled(q, None) && id in q.jobs && OnlyJob(q, q1, id) && NearlySound(q1, id)
    ensures var q' := SetResult(q1, id, -EIO);
            Sound(q') && Settled(q', None) && Polled(q, q', id)
  {
    SetResultSound(q1, id, -EIO);
    SettledKept(q1, SetResult(q1, id, -EIO), id, None);
  }

  lemma PollSend(q: Queue, id: Id, a: Answer)
    requires Sound(q) && Settled(q, None) && id in q.jobs && q.jobs[id].state == NestedSend && a.found && !a.send.Again?
    ensures var q1 := Send(q, q.jobs[id].server, a.send, a.lost);
            var q' := if a.send.Success? then AfterNestedSend(q1, id, Success) else SetResult(q1, id, -EIO);
            Sound(q') && Settled(q', None) && Polled(q, q', id)
  {
    if a.send.Success? {
      SendDoneSound(q, id, a.lost);
      SettledKept(q, AfterNestedSend(Send(q, q.jobs[id].server, a.send, a.lost), id, Success), id, None);
    } else {
      SendNearly(q, id, a.send, a.lost);
      PollGivesUp(q, Send(q, q.jobs[id].server, a.send, a.lost), id);
    }
  }

  lemma SendNearly(q: Queue, id: Id, r: Try, lost: bool)
    requires Sound(q) && id in q.jobs && q.jobs[id].state == NestedSend && !r.Success? && !r.Again?
    ensures NearlySound(Send(q, q.jobs[id].server, r, lost), id) && OnlyJob(q, Send(q, q.jobs[id].server, r, lost), id)
  {
    Unfold(q);
    SendPosts(q, id, q.jobs[id].server, r, lost);
  }

  lemma {:induction false} PollAllSound(q: Queue, o: Oracle, ids: seq<Id>)
    requires Sound(q) && Settled(q, None)
    ensures var q' := PollAll(q, o, ids);
            Sound(q') && Settled(q', None) && q'.asked == q.asked && q'.jobs.Keys <= q.jobs.Keys
    decreases |ids|
  {
    if ids != [] {
      if ids[0] in q.jobs {
        PollJobSound(q, o, ids[0]);
        PollAllSound(PollJob(q, o, ids[0]), o, ids[1..]);
      } else {
        PollAllSound(q, o, ids[1..]);
      }
    }
  }

  // ---- messages

  lemma CreateList(q: Queue, port: Port)
    requires ListOk(q)
    ensures ListOk(Create(q, port))
  {
    var q' := Create(q, port);
    assert q'.order[|q.order|] == |q.asked|;
    assert forall k :: k in q'.order <==> k in q.order || k == |q.asked|;
    assert |q.asked| !in q.order;
  }

  lemma CreateSound(q: Queue, port: Port)
    requires Sound(q) && Settled(q, None)
    ensures var q' := Create(q, port);
            && Sound(q') && Settled(q', Some(|q.asked|)) && |q.asked| !in q.jobs
            && q'.jobs[|q.asked|].state == Fresh && q'.owner == q.owner
  {
    Unfold(q);
    var q' := Create(q, port);
    CreateList(q, port);
    assert SlotOk(q');
    assert CookiesOk(q');
    assert OutboxOk(q');
    Fold(q');
  }

  lemma AcceptSound(q: Queue, o: Oracle, port: Port, p: Prog)
    requires Sound(q) && Settled(q, None) && InOrder(p, true)
    ensures Sound(Accept(q, o, port, p)) && Settled(Accept(q, o, port, p), None)
    ensures Accept(q, o, port, p).asked == q.asked + [port]
  {
    var id, q0 := |q.asked|, Create(q, port);
    CreateSound(q, port);
    ExecSound(q0, o, id, p, true);
    var (q1, d) := Exec(q0, o, id, p);
    match d {
      case Replied =>
        assert q1.jobs[id].state == Fresh;
        assert q1.owner != Some(id) by { Unfold(q1); FreshOwnsNothing(q1, id); }
        SoundReleasable(q1, id);
        ReleaseSound(q1, id);
        assert Release(q1, id).jobs == q1.jobs - {id};
      case Handled(r) =>
        if q1.jobs[id].state != NeedReply {
          FinishSound(q1, id, r);
        }
        var q2 := if q1.jobs[id].state == NeedReply then q1 else SetResult(q1, id, r);
        PollAllSound(q2, o, q2.order);
      case Parks =>
    }
  }

  // The state in which resume_fn runs.
  function Resumed(q: Queue, id: Id): Queue
    requires id in q.jobs
  {
    SetJob(q, id, NestedClear(q.jobs[id]).(state := Fresh))
  }

  lemma ResumedSound(q: Queue, id: Id)
    requires Sound(q) && Settled(q, None) && id in q.jobs && q.jobs[id].state == NestedRecv
    ensures Sound(Resumed(q, id)) && Settled(Resumed(q, id), Some(id)) && OnlyJob(q, Resumed(q, id), id)
  {
    Unfold(q);
    var q' := Resumed(q, id);
    ListKept(q, q', id);
    CookiesKept(q, q', id);
    assert SlotOk(q');
    Fold(q');
  }

  lemma ApplyNestReplySound(q: Queue, o: Oracle, cookie: nat, p: Prog)
    requires Sound(q) && Settled(q, None) && InOrder(p, false)
    ensures Sound(ApplyNestReply(q, o, cookie, p)) && Settled(ApplyNestReply(q, o, cookie, p), None)
    ensures ApplyNestReply(q, o, cookie, p).asked == q.asked
  {
    var w := Waiting(q, q.order, cookie);
    if w.Some? {
      ResumedSound(q, w.value);
      ExecSound(Resumed(q, w.value), o, w.value, p, false);
    }
  }

  lemma HandleSound(q: Queue, o: Oracle, e: Event)
    requires Sound(q) && Settled(q, None) && Proper([e])
    ensures Sound(Handle(q, o, e)) && Settled(Handle(q, o, e), None)
    ensures Handle(q, o, e).asked == q.asked + if e.Arrive? then [e.replyPort] else []
  {
    assert [e][0] == e;
    match e {
      case Arrive(port, p) => AcceptSound(q, o, port, p);
      case NestReply(cookie, p) => ApplyNestReplySound(q, o, cookie, p);
      case PollNow => PollAllSound(q, o, q.order);
    }
  }

  // The reply ports named by the requests, in order.
  function Arrivals(events: seq<Event>): seq<Port> {
    if events == [] then []
    else (if events[0].Arrive? then [events[0].replyPort] else []) + Arrivals(events[1..])
  }

  lemma {:induction false} ServeSound(q: Queue, o: Oracle, events: seq<Event>)
    requires Sound(q) && Settled(q, None) && Proper(events)
    ensures Sound(Serve(q, o, events)) && Settled(Serve(q, o, events), None)
    ensures Serve(q, o, events).asked == q.asked + Arrivals(events)
    decreases |events|
  {
    if events != [] {
      var e, rest, q1 := events[0], events[1..], Handle(q, o, events[0]);
      HandleSound(q, o, e);
      ServeSound(q1, o, rest);
      assert Serve(q, o, events) == Serve(q1, o, rest);
      AskedThenRest(q.asked, q1.asked, events);
    }
  }

  lemma AskedThenRest(before: seq<Port>, after: seq<Port>, events: seq<Event>)
    requires events != [] && after == before + if events[0].Arrive? then [events[0].replyPort] else []
    ensures after + Arrivals(events[1..]) == before + Arrivals(events)
  {
  }

  lemma EmptySound()
    ensures Sound(EMPTY) && Settled(EMPTY, None)
  {
    Fold(EMPTY);
  }
}

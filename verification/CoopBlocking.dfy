/**
 Blocking sends of the listen thread: replies to requests that cannot be read or get
 no job, and the calls that undo a create, mkdir or link whose commit got no node.
 They use the same send queue as the jobs, without owning the slot.
 */
module CoopBlocking {
  import opened Common
  import opened Wrappers
  import opened CoopModel
  import opened CoopProofs
  import opened CoopTheorems

  // One round: look the port up, make the message, queue it, send the head of the
  // queue.  The loops of the code are rounds one after another.
  function DirectSend(q: Queue, port: Port, a: Answer): Queue {
    if !a.found || !a.room then q
    else Send(q.(slot := q.slot + [Direct(port)]), port, a.send, a.lost)
  }

  // The slot is free, and the core does not leave the message behind.
  predicate Clean(q: Queue, a: Answer) {
    a.found && a.room ==> q.slot == [] && (a.send.Success? || a.send.Closed? || (!a.send.Again? && a.lost))
  }

  lemma CleanRound(q: Queue, port: Port, a: Answer)
    requires ListOk(q) && SlotOk(q) && CookiesOk(q) && OutboxOk(q) && RequestsOk(q) && Clean(q, a)
    ensures Sound(DirectSend(q, port, a))
  {
    var q' := DirectSend(q, port, a);
    assert q.owner.None? || q' == q;
    if q'.outbox != q.outbox {
      PostedMore(q.outbox, q.jobs.Keys, q.asked, port);
      assert q'.outbox == q.outbox + [Sent(port, Direct(port))];
    }
    Fold(q');
  }

  lemma PostedMore(outbox: seq<Sent>, keys: set<Id>, asked: seq<Port>, port: Port)
    requires Posted(outbox, keys, asked)
    ensures Posted(outbox + [Sent(port, Direct(port))], keys, asked)
  {
  }

  lemma UncleanRound(q: Queue, port: Port, a: Answer)
    requires SlotOk(q) && !Clean(q, a)
    ensures !SlotOk(DirectSend(q, port, a))
  {
    var q' := DirectSend(q, port, a);
    assert q'.jobs == q.jobs && q'.owner == q.owner;
    if q.slot != [] {
      assert |q'.slot| == 2 || q'.slot == [Direct(port)];
    } else {
      assert q'.slot == [Direct(port)];
    }
  }

  // A round keeps the queue sound exactly if it is clean.
  lemma DirectSoundIff(q: Queue, port: Port, a: Answer)
    requires Sound(q) && Settled(q, None)
    ensures Sound(DirectSend(q, port, a)) <==> Clean(q, a)
    ensures Settled(DirectSend(q, port, a), None) && DirectSend(q, port, a).asked == q.asked
  {
    Unfold(q);
    if Clean(q, a) {
      CleanRound(q, port, a);
    } else {
      UncleanRound(q, port, a);
      assert !Holds(PSlot, DirectSend(q, port, a));
    }
  }

  // And every payload has gone to its own port exactly if the slot was free, or the
  // round delivered nothing, or what was in the slot goes there, too.
  lemma DirectDeliversIff(q: Queue, port: Port, a: Answer)
    requires Sound(q)
    ensures Delivered(DirectSend(q, port, a)) <==>
            !(a.found && a.room && a.send.Success?) || q.slot == [] || Dest(q.slot[0]) == port
  {
    Unfold(q);
    var q' := DirectSend(q, port, a);
    if a.found && a.room && a.send.Success? {
      assert q'.outbox[|q.outbox|].payload == (q.slot + [Direct(port)])[0];
    }
  }

  ghost predicate Delivered(q: Queue) {
    forall i :: 0 <= i < |q.outbox| ==> q.outbox[i].port == Dest(q.outbox[i].payload)
  }

  // ---- runs

  datatype AnyEvent = Ordinary(event: Event) | Blocking(port: Port, answer: Answer)

  function Next(q: Queue, o: Oracle, e: AnyEvent): Queue {
    match e
    case Ordinary(event) => Handle(q, o, event)
    case Blocking(port, a) => DirectSend(q, port, a)
  }

  function After(o: Oracle, events: seq<AnyEvent>): Queue {
    if events == [] then EMPTY else Next(After(o, events[..|events| - 1]), o, events[|events| - 1])
  }

  predicate InOrderAll(events: seq<AnyEvent>) {
    forall i :: 0 <= i < |events| && events[i].Ordinary? ==> Proper([events[i].event])
  }

  // Every blocking send finds what it needs.
  predicate AllClean(o: Oracle, events: seq<AnyEvent>) {
    events == []
    || (AllClean(o, events[..|events| - 1])
        && (events[|events| - 1].Blocking? ==>
              Clean(After(o, events[..|events| - 1]), events[|events| - 1].answer)))
  }

  ghost predicate SoundAllAlong(o: Oracle, events: seq<AnyEvent>) {
    Sound(After(o, events)) && (events != [] ==> SoundAllAlong(o, events[..|events| - 1]))
  }

  // The slot, the cookies and the deliveries are right after every event exactly if
  // every blocking send finds the slot free and leaves nothing behind.
  lemma {:induction false} SoundIffClean(o: Oracle, events: seq<AnyEvent>)
    requires InOrderAll(events)
    ensures SoundAllAlong(o, events) <==> AllClean(o, events)
    ensures AllClean(o, events) ==> Settled(After(o, events), None)
    decreases |events|
  {
    if events == [] {
      EmptySound();
    } else {
      var before, e := events[..|events| - 1], events[|events| - 1];
      SoundIffClean(o, before);
      if AllClean(o, before) {
        match e {
          case Ordinary(event) => HandleSound(After(o, before), o, event);
          case Blocking(port, a) => DirectSoundIff(After(o, before), port, a);
        }
      }
    }
  }

  // Then nothing is delivered to the wrong port.
  lemma CleanDelivers(o: Oracle, events: seq<AnyEvent>)
    requires InOrderAll(events) && AllClean(o, events)
    ensures Delivered(After(o, events))
  {
    SoundIffClean(o, events);
    Unfold(After(o, events));
  }

  // For one: a request waits in the slot, and a client whose request cannot be read is
  // answered.  The client receives the request, and its answer is left in the slot.
  lemma RequestGoesToClient(port: Port, server: Port, client: Port)
    requires server != client
    ensures var events := [Ordinary(Arrive(port, CallOrFail(server, -EIO))),
                           Blocking(client, Answer(true, true, Success, false))];
            var q := After(SLOW, events);
            && InOrderAll(events) && q.outbox == [Sent(client, Request(0, server, 1))] && q.slot == [Direct(client)]
            && !Delivered(q)
  {
    var e := Ordinary(Arrive(port, CallOrFail(server, -EIO)));
    var f := Blocking(client, Answer(true, true, Success, false));
    FirstParks(port, server);
    AfterTwo(SLOW, e, f);
    HeadGoesOut(Accept(EMPTY, SLOW, port, CallOrFail(server, -EIO)), client, Request(0, server, 1));
    CallIsProper(port, server);
  }

  lemma AfterTwo(o: Oracle, e: AnyEvent, f: AnyEvent)
    ensures After(o, [e, f]) == Next(Next(EMPTY, o, e), o, f)
  {
    assert [e, f][..1] == [e] && [e][..0] == [];
    assert After(o, [e]) == Next(After(o, []), o, e);
  }

  lemma CallIsProper(port: Port, server: Port)
    ensures Proper([Arrive(port, CallOrFail(server, -EIO))])
  {
    assert InOrder(Finish(-EIO, Return(Handled(0))), true);
    assert InOrder(CallOrFail(server, -EIO), true);
  }

  lemma HeadGoesOut(q: Queue, client: Port, head: Payload)
    requires q.slot == [head] && q.outbox == []
    ensures var q' := DirectSend(q, client, Answer(true, true, Success, false));
            && q'.outbox == [Sent(client, head)] && q'.slot == [Direct(client)]
            && (Dest(head) != client ==> !Delivered(q'))
  {
    assert q.slot + [Direct(client)] == [head, Direct(client)] && [head, Direct(client)][1..] == [Direct(client)];
    var q' := DirectSend(q, client, Answer(true, true, Success, false));
    assert q'.outbox[0].port == client;
  }
}

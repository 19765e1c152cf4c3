/** From a document's commits to what its client shows: the event broker and the SSE stream together. */
module Stream {
  import opened Model
  import opened Protocol
  import opened Outcomes
  import opened Sse
  import opened Broker

  /** The listener was started at moment `base`. When the client of queue `q` subscribed it had dispatched the
      document's commits up to moment `from`, and by now up to moment `m`, in commit order. */
  ghost predicate Listens(broker: EventBroker, q: nat, document: string, r: Run, base: nat, from: nat, m: nat)
    reads broker
  {
    && base <= from <= m < |r.states|
    && Follows(broker.clients, q, document) && broker.clients[q].since <= |broker.log|
    && r.states[from].events == r.states[base].events + DeltasFor(broker.log[..broker.clients[q].since], document)
    && r.states[m].events == r.states[base].events + DeltasFor(broker.log, document)
  }

  /** So the client was handed exactly what its document emitted since. */
  lemma HandedSince(broker: EventBroker, q: nat, document: string, r: Run, base: nat, from: nat, m: nat)
    requires broker.Valid() && Listens(broker, q, document, r, base, from, m)
    ensures q in broker.ledgers && r.states[from].events <= r.states[m].events
    ensures broker.ledgers[q].dispatched == Deltas(r.states[m], r.states[from].events)
  {
    var since := broker.clients[q].since;
    assert broker.log == broker.log[..since] + broker.log[since..];
    DeltasForConcat(broker.log[..since], broker.log[since..], document);
    assert r.states[m].events == r.states[from].events + DeltasFor(broker.log[since..], document);
  }

  /** The event loop has run all callbacks for the queue, and none of them found it full. */
  ghost predicate CaughtUp(broker: EventBroker, q: nat)
    reads broker
  {
    && q in broker.ledgers
    && (forall i :: 0 <= i < |broker.scheduled| ==> broker.scheduled[i].queue != q)
    && (forall i :: 0 <= i < |broker.ledgers[q].offers| ==> broker.ledgers[q].offers[i].accepted)
  }

  lemma EverythingArrives(broker: EventBroker, q: nat)
    requires broker.Valid() && q in broker.queues && CaughtUp(broker, q)
    ensures broker.ledgers[q].taken + broker.queues[q] == broker.ledgers[q].dispatched
  {
    assert QueueOk(broker.queues, broker.ledgers, broker.scheduled, q);
    NoneScheduled(broker.scheduled, q);
    ClientReceivesInOrder(broker.ledgers[q], broker.queues[q], []);
  }

  /** Without overlap: a client that subscribed, read its snapshot at any moments since, and applies what it
      has taken from its queue and what still lies in it, ends with the stored document status and the stored
      status of every step, or RUNNING where a retry is QUEUED; provided that no delta of its was dropped
      and none is pending. */
  lemma StreamConverges(c: Config, r: Run, broker: EventBroker, q: nat, document: string, base: nat, from: nat, m: nat,
                        snapshot: View, docAt: nat, at: map<StepName, nat>)
    requires ValidConfig(c) && IsRun(c, r) && NoOverlapEver(r)
    requires broker.Valid() && CaughtUp(broker, q) && Listens(broker, q, document, r, base, from, m)
    requires SnapshotTaken(r, from, m, snapshot, docAt, at)
    ensures q in broker.queues
    ensures var view := ApplyDeltas(snapshot, broker.ledgers[q].taken + broker.queues[q]);
      && view.doc == r.states[m].doc
      && forall n :: n in at ==>
           n in view.steps && n in r.states[m].rows && Shows(view.steps[n], r.states[m].rows[n].status)
  {
    HandedSince(broker, q, document, r, base, from, m);
    EverythingArrives(broker, q);
    ClientConverges(c, r, from, m, snapshot, docAt, at);
  }

  /** And even with deltas dropped or pending, and writers overlapping: what the client got is part of what its
      document emitted since it subscribed, in commit order. */
  lemma StreamIsInOrder(r: Run, broker: EventBroker, q: nat, document: string, base: nat, from: nat, m: nat)
    requires broker.Valid() && Listens(broker, q, document, r, base, from, m)
    ensures q in broker.queues && r.states[from].events <= r.states[m].events
    ensures IsSubsequence(broker.ledgers[q].taken + broker.queues[q], Deltas(r.states[m], r.states[from].events))
  {
    HandedSince(broker, q, document, r, base, from, m);
    assert QueueOk(broker.queues, broker.ledgers, broker.scheduled, q);
    ClientReceivesInOrder(broker.ledgers[q], broker.queues[q], PendingFor(broker.scheduled, q));
  }
}

/** The in-process event broker: one listener thread dispatches, one event loop enqueues, clients drain
    bounded queues. */
module Broker {
  import opened Model

  /** What became of a delta offered to a client's queue. */
  datatype Offer = Offer(delta: Event, accepted: bool)

  /** The history of one client: the deltas dispatched for its document while it was subscribed, what the
      event loop did with those it got to, and what the client took out of its queue. */
  datatype Ledger = Ledger(dispatched: seq<Event>, offers: seq<Offer>, taken: seq<Event>)

  datatype Call = Call(queue: nat, delta: Event)

  /** A notification that the listener handed to `_dispatch`. */
  datatype Notification = Notification(document: string, delta: Event)

  /** Who holds a queue: what it subscribed to, and how many notifications had been dispatched by then. */
  datatype Client = Client(document: string, since: nat)

  /** The deltas of one document among the notifications, oldest first. */
  function DeltasFor(log: seq<Notification>, document: string): seq<Event> {
    if log == [] then []
    else
      var last := log[|log|-1];
      DeltasFor(log[..|log|-1], document) + (if last.document == document then [last.delta] else [])
  }

  lemma DeltasForAppend(log: seq<Notification>, n: Notification, document: string)
    ensures DeltasFor(log + [n], document)
         == DeltasFor(log, document) + (if n.document == document then [n.delta] else [])
  {
    assert (log + [n])[..|log|] == log;
  }

  lemma {:induction false} DeltasForConcat(a: seq<Notification>, b: seq<Notification>, document: string)
    ensures DeltasFor(a + b, document) == DeltasFor(a, document) + DeltasFor(b, document)
  {
    if b == [] {
      assert a + b == a;
    } else {
      var init, last := b[..|b|-1], b[|b|-1];
      DeltasForConcat(a, init, document);
      assert a + b == a + init + [last];
      DeltasForAppend(a + init, last, document);
      assert DeltasFor(a, document) + (DeltasFor(init, document) + (if last.document == document then [last.delta]
             else [])) == DeltasFor(a + b, document);
    }
  }

  function DeltasOf(offers: seq<Offer>): (r: seq<Event>)
    ensures |r| == |offers|
  {
    if offers == [] then [] else DeltasOf(offers[..|offers|-1]) + [offers[|offers|-1].delta]
  }

  function AcceptedOf(offers: seq<Offer>): seq<Event> {
    if offers == [] then []
    else
      var last := offers[|offers|-1];
      AcceptedOf(offers[..|offers|-1]) + (if last.accepted then [last.delta] else [])
  }

  /** The deltas still scheduled for one queue, oldest first. */
  function PendingFor(calls: seq<Call>, q: nat): seq<Event> {
    if calls == [] then []
    else (if calls[0].queue == q then [calls[0].delta] else []) + PendingFor(calls[1..], q)
  }

  lemma {:induction false} PendingAppend(calls: seq<Call>, call: Call, q: nat)
    ensures PendingFor(calls + [call], q) == PendingFor(calls, q) + (if call.queue == q then [call.delta] else [])
  {
    if calls != [] {
      PendingAppend(calls[1..], call, q);
      assert (calls + [call])[1..] == calls[1..] + [call];
    }
  }

  lemma OfferAppend(offers: seq<Offer>, o: Offer)
    ensures DeltasOf(offers + [o]) == DeltasOf(offers) + [o.delta]
    ensures AcceptedOf(offers + [o]) == AcceptedOf(offers) + (if o.accepted then [o.delta] else [])
  {
    assert (offers + [o])[..|offers|] == offers;
  }

  /** `xs` is `ys` with some elements left out, in order. */
  ghost predicate IsSubsequence(xs: seq<Event>, ys: seq<Event>)
    decreases |ys|
  {
    if ys == [] then xs == []
    else
      || IsSubsequence(xs, ys[..|ys|-1])
      || (xs != [] && xs[|xs|-1] == ys[|ys|-1] && IsSubsequence(xs[..|xs|-1], ys[..|ys|-1]))
  }

  lemma {:induction false} SubsequenceOfLonger(xs: seq<Event>, ys: seq<Event>, more: seq<Event>)
    requires IsSubsequence(xs, ys)
    ensures IsSubsequence(xs, ys + more)
    decreases |more|
  {
    if more == [] {
      assert ys + more == ys;
    } else {
      var init := more[..|more|-1];
      SubsequenceOfLonger(xs, ys, init);
      assert (ys + more)[..|ys + more|-1] == ys + init;
    }
  }

  lemma {:induction false} AcceptedIsSubsequence(offers: seq<Offer>)
    ensures IsSubsequence(AcceptedOf(offers), DeltasOf(offers))
  {
    if offers != [] {
      var init, last := offers[..|offers|-1], offers[|offers|-1];
      AcceptedIsSubsequence(init);
      var xs, ys := AcceptedOf(offers), DeltasOf(offers);
      assert ys == DeltasOf(init) + [last.delta];
      assert ys[..|ys|-1] == DeltasOf(init);
      if last.accepted {
        assert xs == AcceptedOf(init) + [last.delta];
        assert xs[..|xs|-1] == AcceptedOf(init);
        assert IsSubsequence(xs[..|xs|-1], ys[..|ys|-1]);
      } else {
        assert xs == AcceptedOf(init);
      }
    }
  }

  lemma {:induction false} AllAcceptedIsAll(offers: seq<Offer>)
    requires forall i :: 0 <= i < |offers| ==> offers[i].accepted
    ensures AcceptedOf(offers) == DeltasOf(offers)
  {
    if offers != [] {
      AllAcceptedIsAll(offers[..|offers|-1]);
    }
  }

  /** What ties a client's queue to its history. */
  ghost predicate LedgerOk(ledger: Ledger, queue: seq<Event>, pending: seq<Event>) {
    && ledger.dispatched == DeltasOf(ledger.offers) + pending
    && ledger.taken + queue == AcceptedOf(ledger.offers)
  }

  /** Each client receives, in order, a subsequence of the deltas dispatched for its document while it was
      subscribed; if none of its deltas was dropped and none is pending, it has received all of them. */
  lemma ClientReceivesInOrder(ledger: Ledger, queue: seq<Event>, pending: seq<Event>)
    requires LedgerOk(ledger, queue, pending)
    ensures IsSubsequence(ledger.taken + queue, ledger.dispatched)
    ensures pending == [] && (forall i :: 0 <= i < |ledger.offers| ==> ledger.offers[i].accepted)
            ==> ledger.taken + queue == ledger.dispatched
  {
    AcceptedIsSubsequence(ledger.offers);
    SubsequenceOfLonger(AcceptedOf(ledger.offers), DeltasOf(ledger.offers), pending);
    if forall i :: 0 <= i < |ledger.offers| ==> ledger.offers[i].accepted {
      AllAcceptedIsAll(ledger.offers);
    }
  }

  const QUEUE_MAXSIZE := 100

  // ---- the queues' bookkeeping, on values ----

  ghost predicate QueueOk(queues: map<nat, seq<Event>>, ledgers: map<nat, Ledger>, scheduled: seq<Call>, q: nat) {
    && q in queues && q in ledgers
    && |queues[q]| <= QUEUE_MAXSIZE
    && LedgerOk(ledgers[q], queues[q], PendingFor(scheduled, q))
  }

  ghost predicate QueuesOk(queues: map<nat, seq<Event>>, ledgers: map<nat, Ledger>, scheduled: seq<Call>) {
    && ledgers.Keys == queues.Keys
    && (forall q {:trigger QueueOk(queues, ledgers, scheduled, q)} ::
           q in queues ==> QueueOk(queues, ledgers, scheduled, q))
    && (forall i :: 0 <= i < |scheduled| ==> scheduled[i].queue in queues)
  }

  function Dispatched(ledgers: map<nat, Ledger>, q: nat, delta: Event): map<nat, Ledger>
    requires q in ledgers
  {
    ledgers[q := ledgers[q].(dispatched := ledgers[q].dispatched + [delta])]
  }

  function Offered(ledgers: map<nat, Ledger>, q: nat, delta: Event, accepted: bool): map<nat, Ledger>
    requires q in ledgers
  {
    ledgers[q := ledgers[q].(offers := ledgers[q].offers + [Offer(delta, accepted)])]
  }

  function Taken(ledgers: map<nat, Ledger>, q: nat, delta: Event): map<nat, Ledger>
    requires q in ledgers
  {
    ledgers[q := ledgers[q].(taken := ledgers[q].taken + [delta])]
  }

  lemma DispatchLedger(ledger: Ledger, queue: seq<Event>, pending: seq<Event>, delta: Event)
    requires LedgerOk(ledger, queue, pending)
    ensures LedgerOk(ledger.(dispatched := ledger.dispatched + [delta]), queue, pending + [delta])
  {
    assert DeltasOf(ledger.offers) + (pending + [delta]) == DeltasOf(ledger.offers) + pending + [delta];
  }

  lemma OfferLedger(ledger: Ledger, queue: seq<Event>, pending: seq<Event>, delta: Event, accepted: bool)
    requires LedgerOk(ledger, queue, [delta] + pending)
    ensures LedgerOk(ledger.(offers := ledger.offers + [Offer(delta, accepted)]),
                     if accepted then queue + [delta] else queue, pending)
  {
    OfferAppend(ledger.offers, Offer(delta, accepted));
    assert DeltasOf(ledger.offers) + ([delta] + pending) == DeltasOf(ledger.offers) + [delta] + pending;
    assert ledger.taken + (queue + [delta]) == ledger.taken + queue + [delta];
  }

  lemma ScheduleKeeps(queues: map<nat, seq<Event>>, ledgers: map<nat, Ledger>, scheduled: seq<Call>, q: nat,
                      delta: Event)
    requires QueuesOk(queues, ledgers, scheduled) && q in queues
    ensures QueuesOk(queues, Dispatched(ledgers, q, delta), scheduled + [Call(q, delta)])
  {
    var calls := scheduled + [Call(q, delta)];
    forall p | p in queues ensures QueueOk(queues, Dispatched(ledgers, q, delta), calls, p) {
      assert QueueOk(queues, ledgers, scheduled, p);
      PendingAppend(scheduled, Call(q, delta), p);
      if p == q {
        DispatchLedger(ledgers[q], queues[q], PendingFor(scheduled, q), delta);
      } else {
        assert PendingFor(calls, p) == PendingFor(scheduled, p);
      }
    }
  }

  function Buffered(queues: map<nat, seq<Event>>, q: nat, delta: Event, accepted: bool): map<nat, seq<Event>>
    requires q in queues
  {
    if accepted then queues[q := queues[q] + [delta]] else queues
  }

  /** The effect of one `_enqueue` callback. */
  lemma OfferKeeps(queues: map<nat, seq<Event>>, ledgers: map<nat, Ledger>, q: nat, delta: Event, rest: seq<Call>,
                   accepted: bool)
    requires QueuesOk(queues, ledgers, [Call(q, delta)] + rest) && q in queues
    requires accepted ==> |queues[q]| < QUEUE_MAXSIZE
    ensures QueuesOk(Buffered(queues, q, delta, accepted), Offered(ledgers, q, delta, accepted), rest)
  {
    var queues', ledgers' := Buffered(queues, q, delta, accepted), Offered(ledgers, q, delta, accepted);
    forall p | p in queues' ensures QueueOk(queues', ledgers', rest, p) {
      OfferKeepsQueue(queues, ledgers, q, delta, rest, accepted, p);
    }
    forall i | 0 <= i < |rest| ensures rest[i].queue in queues' {
      assert ([Call(q, delta)] + rest)[i+1] == rest[i];
    }
  }

  lemma OfferKeepsQueue(queues: map<nat, seq<Event>>, ledgers: map<nat, Ledger>, q: nat, delta: Event, rest: seq<Call>,
                           accepted: bool, p: nat)
    requires q in queues && q in ledgers && QueueOk(queues, ledgers, [Call(q, delta)] + rest, p)
    requires accepted ==> |queues[q]| < QUEUE_MAXSIZE
    ensures QueueOk(Buffered(queues, q, delta, accepted), Offered(ledgers, q, delta, accepted), rest, p)
  {
    assert ([Call(q, delta)] + rest)[1..] == rest;
    if p == q {
      OfferLedger(ledgers[q], queues[q], PendingFor(rest, q), delta, accepted);
    } else {
      assert PendingFor([Call(q, delta)] + rest, p) == PendingFor(rest, p);
    }
  }

  lemma GetKeeps(queues: map<nat, seq<Event>>, ledgers: map<nat, Ledger>, scheduled: seq<Call>, q: nat)
    requires QueuesOk(queues, ledgers, scheduled) && q in queues && queues[q] != []
    ensures QueuesOk(queues[q := queues[q][1..]], Taken(ledgers, q, queues[q][0]), scheduled)
  {
    var queues', ledgers' := queues[q := queues[q][1..]], Taken(ledgers, q, queues[q][0]);
    forall p | p in queues' ensures QueueOk(queues', ledgers', scheduled, p) {
      assert QueueOk(queues, ledgers, scheduled, p);
      assert ledgers[q].taken + queues[q] == ledgers[q].taken + [queues[q][0]] + queues[q][1..];
    }
  }

  lemma SubscribeKeeps(queues: map<nat, seq<Event>>, ledgers: map<nat, Ledger>, scheduled: seq<Call>, q: nat)
    requires QueuesOk(queues, ledgers, scheduled) && q !in queues
    ensures QueuesOk(queues[q := []], ledgers[q := Ledger([], [], [])], scheduled)
  {
    NoneScheduled(scheduled, q);
    var queues', ledgers' := queues[q := []], ledgers[q := Ledger([], [], [])];
    forall p | p in queues' ensures QueueOk(queues', ledgers', scheduled, p) {
      assert p in queues ==> QueueOk(queues, ledgers, scheduled, p);
    }
  }

  function SubscribersOf(subscribers: map<string, set<nat>>, document: string): set<nat> {
    if document in subscribers then subscribers[document] else {}
  }

  lemma {:induction false} NoneScheduled(calls: seq<Call>, q: nat)
    requires forall i :: 0 <= i < |calls| ==> calls[i].queue != q
    ensures PendingFor(calls, q) == []
  {
    if calls != [] {
      NoneScheduled(calls[1..], q);
    }
  }

  /** `order` lists the members of `queues`, each once. */
  ghost predicate IsListing(order: seq<nat>, queues: set<nat>) {
    && (forall i, j :: 0 <= i < j < |order| ==> order[i] != order[j])
    && (forall q :: q in order <==> q in queues)
  }

  lemma ListingAppend(order: seq<nat>, queues: set<nat>, q: nat)
    requires IsListing(order, queues) && q !in queues
    ensures IsListing(order + [q], queues + {q})
  {}

  function CallsFor(order: seq<nat>, delta: Event): seq<Call> {
    seq(|order|, i requires 0 <= i < |order| => Call(order[i], delta))
  }

  lemma CallsForAppend(order: seq<nat>, q: nat, delta: Event)
    ensures CallsFor(order + [q], delta) == CallsFor(order, delta) + [Call(q, delta)]
  {}

  /** `ledgers` after `delta` was dispatched to the queues in `order`. */
  ghost predicate DispatchedTo(before: map<nat, Ledger>, after: map<nat, Ledger>, order: seq<nat>, delta: Event) {
    && after.Keys == before.Keys
    && forall q :: q in before ==>
         after[q] == if q in order then before[q].(dispatched := before[q].dispatched + [delta]) else before[q]
  }

  lemma DispatchedAppend(before: map<nat, Ledger>, after: map<nat, Ledger>, order: seq<nat>, q: nat, delta: Event)
    requires DispatchedTo(before, after, order, delta) && q in before && q !in order
    ensures DispatchedTo(before, Dispatched(after, q, delta), order + [q], delta)
  {}

  /** `delta` has been scheduled for the queues `served`, in this order, and nothing else happened. */
  ghost predicate Served(before: map<nat, Ledger>, ledgers: map<nat, Ledger>, start: seq<Call>, scheduled: seq<Call>,
                         order: seq<nat>, served: set<nat>, delta: Event) {
    && IsListing(order, served)
    && scheduled == start + CallsFor(order, delta)
    && DispatchedTo(before, ledgers, order, delta)
  }

  /** One round of `_dispatch`'s loop. */
  lemma OneMore(before: map<nat, Ledger>, ledgers: map<nat, Ledger>, start: seq<Call>, scheduled: seq<Call>,
                order: seq<nat>, served: set<nat>, q: nat, delta: Event)
    requires Served(before, ledgers, start, scheduled, order, served, delta) && q !in served && q in before
    ensures Served(before, Dispatched(ledgers, q, delta), start, scheduled + [Call(q, delta)], order + [q],
                   served + {q}, delta)
  {
    DispatchedAppend(before, ledgers, order, q, delta);
    ListingAppend(order, served, q);
    CallsForAppend(order, q, delta);
  }

  lemma NextServed(before: map<nat, Ledger>, ledgers: map<nat, Ledger>, start: seq<Call>, scheduled: seq<Call>,
                   order: seq<nat>, all: set<nat>, todo: set<nat>, q: nat, delta: Event)
    requires Served(before, ledgers, start, scheduled, order, all - todo, delta) && q in todo && todo <= all
    requires q in before
    ensures q in ledgers
    ensures Served(before, Dispatched(ledgers, q, delta), start, scheduled + [Call(q, delta)], order + [q],
                   all - (todo - {q}), delta)
  {
    OneMore(before, ledgers, start, scheduled, order, all - todo, q, delta);
    assert all - (todo - {q}) == all - todo + {q};
  }

  /** Subscriber sets are never empty and name existing queues. */
  ghost predicate NamesOk(subscribers: map<string, set<nat>>, names: set<nat>, nextQueue: nat) {
    && (forall q :: q in names ==> q < nextQueue)
    && (forall d :: d in subscribers ==> subscribers[d] != {} && subscribers[d] <= names)
  }

  // ---- who is subscribed to what ----

  ghost predicate Follows(clients: map<nat, Client>, q: nat, document: string) {
    q in clients && clients[q].document == document
  }

  /** The subscriber sets are exactly the clients, each under the document it subscribed to. */
  ghost predicate ClientsOk(subscribers: map<string, set<nat>>, clients: map<nat, Client>) {
    forall q, d :: d in subscribers && q in subscribers[d] <==> Follows(clients, q, d)
  }

  /** Each client was handed exactly what was dispatched for its document since it subscribed, in order. */
  ghost predicate HistoryOk(ledgers: map<nat, Ledger>, clients: map<nat, Client>, log: seq<Notification>) {
    forall q :: q in clients ==>
      && q in ledgers && clients[q].since <= |log|
      && ledgers[q].dispatched == DeltasFor(log[clients[q].since..], clients[q].document)
  }

  lemma SubscribersAreClients(subscribers: map<string, set<nat>>, clients: map<nat, Client>, document: string)
    requires ClientsOk(subscribers, clients)
    ensures forall q :: q in SubscribersOf(subscribers, document) <==> Follows(clients, q, document)
  {
    forall q ensures q in SubscribersOf(subscribers, document) <==> Follows(clients, q, document) {
      assert document in subscribers && q in subscribers[document] <==> Follows(clients, q, document);
    }
  }

  /** `delta` was dispatched for `document`: it reaches the queues that follow the document, and no other. */
  ghost predicate Reaches(before: map<nat, Ledger>, after: map<nat, Ledger>, clients: map<nat, Client>,
                          document: string, delta: Event) {
    && after.Keys == before.Keys
    && forall q :: q in before ==>
         after[q].dispatched == before[q].dispatched + (if Follows(clients, q, document) then [delta] else [])
  }

  lemma ServedReaches(before: map<nat, Ledger>, ledgers: map<nat, Ledger>, start: seq<Call>, scheduled: seq<Call>,
                      order: seq<nat>, served: set<nat>, clients: map<nat, Client>, document: string, delta: Event)
    requires Served(before, ledgers, start, scheduled, order, served, delta)
    requires forall q :: q in served <==> Follows(clients, q, document)
    ensures Reaches(before, ledgers, clients, document, delta)
  {}

  lemma DispatchKeepsHistory(before: map<nat, Ledger>, after: map<nat, Ledger>, clients: map<nat, Client>,
                             log: seq<Notification>, document: string, delta: Event)
    requires HistoryOk(before, clients, log) && Reaches(before, after, clients, document, delta)
    ensures HistoryOk(after, clients, log + [Notification(document, delta)])
  {
    var n := Notification(document, delta);
    forall q | q in clients
      ensures q in after && after[q].dispatched == DeltasFor((log + [n])[clients[q].since..], clients[q].document)
    {
      assert (log + [n])[clients[q].since..] == log[clients[q].since..] + [n];
      DeltasForAppend(log[clients[q].since..], n, clients[q].document);
    }
  }

  lemma SubscribeKeepsClients(subscribers: map<string, set<nat>>, clients: map<nat, Client>, q: nat, document: string,
                              since: nat)
    requires ClientsOk(subscribers, clients) && q !in clients
    ensures ClientsOk(subscribers[document := SubscribersOf(subscribers, document) + {q}],
                      clients[q := Client(document, since)])
  {
    var subscribers', clients' := subscribers[document := SubscribersOf(subscribers, document) + {q}],
                                  clients[q := Client(document, since)];
    forall p, d ensures d in subscribers' && p in subscribers'[d] <==> Follows(clients', p, d) {
      assert d in subscribers && p in subscribers[d] <==> Follows(clients, p, d);
    }
  }

  lemma SubscribeKeepsNames(subscribers: map<string, set<nat>>, names: set<nat>, q: nat, document: string)
    requires NamesOk(subscribers, names, q)
    ensures q !in names
    ensures NamesOk(subscribers[document := SubscribersOf(subscribers, document) + {q}], names + {q}, q + 1)
  {}

  lemma SubscribeKeepsHistory(ledgers: map<nat, Ledger>, clients: map<nat, Client>, log: seq<Notification>, q: nat,
                              document: string)
    requires HistoryOk(ledgers, clients, log) && q !in clients
    ensures HistoryOk(ledgers[q := Ledger([], [], [])], clients[q := Client(document, |log|)], log)
  {
    assert log[|log|..] == [];
  }

  /** The clients once `q` unsubscribed from `document`. */
  function Leaves(clients: map<nat, Client>, q: nat, document: string): map<nat, Client> {
    if q in clients && clients[q].document == document then clients - {q} else clients
  }

  /** The subscriber sets once `q` left the document's. */
  function Without(subscribers: map<string, set<nat>>, q: nat, document: string): map<string, set<nat>> {
    if document !in subscribers then subscribers
    else if subscribers[document] - {q} == {} then subscribers - {document}
    else subscribers[document := subscribers[document] - {q}]
  }

  lemma UnsubscribeKeepsClients(subscribers: map<string, set<nat>>, clients: map<nat, Client>, q: nat,
                                document: string, names: set<nat>, nextQueue: nat)
    requires ClientsOk(subscribers, clients) && NamesOk(subscribers, names, nextQueue)
    ensures ClientsOk(Without(subscribers, q, document), Leaves(clients, q, document))
    ensures NamesOk(Without(subscribers, q, document), names, nextQueue)
  {
    var subscribers', clients' := Without(subscribers, q, document), Leaves(clients, q, document);
    forall p, d ensures d in subscribers' && p in subscribers'[d] <==> Follows(clients', p, d) {
      assert d in subscribers && p in subscribers[d] <==> Follows(clients, p, d);
      assert document in subscribers && q in subscribers[document] <==> Follows(clients, q, document);
    }
  }

  lemma LeaveKeepsHistory(ledgers: map<nat, Ledger>, clients: map<nat, Client>, log: seq<Notification>, q: nat,
                          document: string)
    requires HistoryOk(ledgers, clients, log)
    ensures HistoryOk(ledgers, Leaves(clients, q, document), log) && Leaves(clients, q, document).Keys <= clients.Keys
  {}

  // ---- the broker ----

  /** Queues are named by numbers: a client holds the number `Subscribe` returned. */
  class EventBroker {
    var subscribers: map<string, set<nat>>
    var queues: map<nat, seq<Event>>
    var scheduled: seq<Call>   // callbacks handed to the event loop, oldest first
    var looping: bool             // whether the listener was started with a loop
    var droppedEvents: nat
    var nextQueue: nat
    ghost var ledgers: map<nat, Ledger>
    ghost var clients: map<nat, Client>         // who is subscribed
    ghost var log: seq<Notification>              // what was dispatched once the loop was set, oldest first
    ghost var everScheduled: nat
    ghost var everAccepted: nat

    /** The subscriber sets are the clients, and each client was handed what its document had since. */
    ghost predicate Valid()
      reads this
    {
      Sound() && HistoryOk(ledgers, clients, log)
    }

    /** No queue exceeds its cap, no empty subscriber set is kept, every delta ever scheduled is pending,
        accepted or counted as dropped, and each client's queue agrees with its history. */
    ghost predicate Sound()
      reads this
    {
      && ClientsOk(subscribers, clients) && clients.Keys <= queues.Keys
      && QueuesOk(queues, ledgers, scheduled)
      && NamesOk(subscribers, queues.Keys, nextQueue)
      && everScheduled == |scheduled| + everAccepted + droppedEvents
    }

    constructor ()
      ensures Valid()
      ensures subscribers == map[] && queues == map[] && scheduled == [] && droppedEvents == 0 && !looping
      ensures clients == map[] && log == []
    {
      subscribers, queues, scheduled, looping := map[], map[], [], false;
      droppedEvents, nextQueue := 0, 0;
      ledgers, clients, log, everScheduled, everAccepted := map[], map[], [], 0, 0;
    }

    method Start()
      requires Valid()
      modifies this`looping
      ensures Valid() && looping
    {
      looping := true;
    }

    method Subscribe(document: string) returns (q: nat)
      requires Valid()
      modifies this`subscribers, this`queues, this`nextQueue, this`ledgers, this`clients
      ensures Valid()
      ensures q !in old(queues) && queues == old(queues)[q := []]
      ensures clients == old(clients)[q := Client(document, |log|)]
      ensures subscribers == old(subscribers)[document :=
                (if document in old(subscribers) then old(subscribers)[document] else {}) + {q}]
      ensures ledgers == old(ledgers)[q := Ledger([], [], [])]
    {
      hide QueuesOk, ClientsOk, NamesOk, HistoryOk;
      q := nextQueue;
      SubscribeKeepsNames(subscribers, queues.Keys, nextQueue, document);
      SubscribeKeepsClients(subscribers, clients, q, document, |log|);
      SubscribeKeepsHistory(ledgers, clients, log, q, document);
      clients := clients[q := Client(document, |log|)];
      SubscribeKeeps(queues, ledgers, scheduled, q);
      assert queues[q := []].Keys == queues.Keys + {q};
      queues := queues[q := []];
      subscribers := subscribers[document := SubscribersOf(subscribers, document) + {q}];
      ledgers := ledgers[q := Ledger([], [], [])];
      nextQueue := nextQueue + 1;
    }

    method Unsubscribe(document: string, q: nat)
      requires Valid()
      modifies this`subscribers, this`clients
      ensures Valid()
      ensures clients == if q in old(clients) && old(clients)[q].document == document then old(clients) - {q}
                         else old(clients)
      ensures subscribers ==
        if document !in old(subscribers) then old(subscribers)
        else if old(subscribers)[document] <= {q} then old(subscribers) - {document}
        else old(subscribers)[document := old(subscribers)[document] - {q}]
    {
      hide QueuesOk, ClientsOk, NamesOk, HistoryOk;
      UnsubscribeKeepsClients(subscribers, clients, q, document, queues.Keys, nextQueue);
      LeaveKeepsHistory(ledgers, clients, log, q, document);
      ghost var left := Without(subscribers, q, document);
      if document in subscribers {
        var remaining := subscribers[document] - {q};
        if remaining == {} {
          subscribers := subscribers - {document};
        } else {
          subscribers := subscribers[document := remaining];
        }
      }
      assert subscribers == left;
      clients := Leaves(clients, q, document);
    }

    /** `_dispatch`: one callback for each queue that follows the document, in the set's iteration order. */
    method Dispatch(document: string, delta: Event) returns (ghost order: seq<nat>)
      requires Valid()
      modifies this`scheduled, this`ledgers, this`everScheduled, this`log
      ensures Valid()
      ensures log == old(log) + (if looping then [Notification(document, delta)] else [])
      ensures looping ==> Reaches(old(ledgers), ledgers, clients, document, delta)
      ensures !looping ==> ledgers == old(ledgers) && order == []
      ensures (forall q :: q in order <==> looping && Follows(clients, q, document))
      ensures (forall i, j :: 0 <= i < j < |order| ==> order[i] != order[j])
      ensures scheduled == old(scheduled) + CallsFor(order, delta)
    {
      hide QueuesOk;
      order := [];
      if looping {
        SubscribersAreClients(subscribers, clients, document);
        order := CallEach(SubscribersOf(subscribers, document), delta);
        ServedReaches(old(ledgers), ledgers, old(scheduled), scheduled, order, SubscribersOf(subscribers, document),
                      clients, document, delta);
        DispatchKeepsHistory(old(ledgers), ledgers, clients, log, document, delta);
        log := log + [Notification(document, delta)];
      }
    }

    /** The listener's loop over what the connection has received. */
    method DispatchAll(notifies: seq<Notification>)
      requires Valid()
      modifies this`scheduled, this`ledgers, this`everScheduled, this`log
      ensures Valid()
      ensures log == old(log) + (if looping then notifies else [])
    {
      hide QueuesOk, HistoryOk, ClientsOk;
      var todo := notifies;
      while todo != []
        invariant Valid()
        invariant log + (if looping then todo else []) == old(log) + (if looping then notifies else [])
        decreases |todo|
      {
        var next := todo[0];
        ghost var log0, todo0 := log, todo;
        todo := todo[1..];
        ghost var _ := Dispatch(next.document, next.delta);
        assert log0 + [next] + todo == log0 + todo0;
      }
    }

    method CallEach(all: set<nat>, delta: Event) returns (ghost order: seq<nat>)
      requires Sound() && all <= queues.Keys
      modifies this`scheduled, this`ledgers, this`everScheduled
      ensures Sound()
      ensures Served(old(ledgers), ledgers, old(scheduled), scheduled, order, all, delta)
    {
      order := [];
      var todo := all;
      while todo != {}
        invariant Sound() && todo <= all && queues.Keys == old(queues.Keys)
        invariant Served(old(ledgers), ledgers, old(scheduled), scheduled, order, all - todo, delta)
        decreases |todo|
      {
        var q :| q in todo;
        ghost var ledgers0, scheduled0 := ledgers, scheduled;
        CallSoon(q, delta);
        NextServed(old(ledgers), ledgers0, old(scheduled), scheduled0, order, all, todo, q, delta);
        todo := todo - {q};
        order := order + [q];
      }
      assert all - {} == all;
    }

    /** `call_soon_threadsafe(self._enqueue, queue, event)` */
    method CallSoon(q: nat, delta: Event)
      requires Sound() && q in queues
      modifies this`scheduled, this`ledgers, this`everScheduled
      ensures Sound()
      ensures scheduled == old(scheduled) + [Call(q, delta)]
      ensures ledgers == Dispatched(old(ledgers), q, delta) && everScheduled == old(everScheduled) + 1
    {
      ScheduleKeeps(queues, ledgers, scheduled, q, delta);
      scheduled := scheduled + [Call(q, delta)];
      everScheduled := everScheduled + 1;
      ledgers := Dispatched(ledgers, q, delta);
    }

    /** The event loop runs its oldest callback. */
    method RunNextCallback()
      requires Valid() && scheduled != []
      modifies this`queues, this`scheduled, this`droppedEvents, this`ledgers, this`everAccepted
      ensures Valid()
      ensures scheduled == old(scheduled)[1..]
      ensures Enqueued(old(queues), old(ledgers), old(droppedEvents), old(everAccepted), old(scheduled)[0])
      ensures var q := old(scheduled)[0].queue;
        q in old(queues) && (droppedEvents == old(droppedEvents) + 1 <==> |old(queues)[q]| >= 100)
    {
      var call := scheduled[0];
      TakeCall();
      Enqueue(call.queue, call.delta);
    }

    method TakeCall()
      requires QueuesOk(queues, ledgers, scheduled) && scheduled != []
      modifies this`scheduled
      ensures scheduled == old(scheduled)[1..]
      ensures QueuesOk(queues, ledgers, [old(scheduled)[0]] + scheduled)
    {
      assert scheduled == [scheduled[0]] + scheduled[1..];
      scheduled := scheduled[1..];
    }

    /** What `_enqueue` leaves behind: a full queue loses the delta, and it is counted. */
    ghost predicate Enqueued(queues0: map<nat, seq<Event>>, ledgers0: map<nat, Ledger>, dropped0: nat, accepted0: nat,
                             call: Call)
      reads this
    {
      && call.queue in queues0 && call.queue in ledgers0
      && var accepted := |queues0[call.queue]| < QUEUE_MAXSIZE;
      && queues == Buffered(queues0, call.queue, call.delta, accepted)
      && ledgers == Offered(ledgers0, call.queue, call.delta, accepted)
      && droppedEvents == dropped0 + (if accepted then 0 else 1)
      && everAccepted == accepted0 + (if accepted then 1 else 0)
    }

    /** `_enqueue`, with the callback it belongs to already off the loop. */
    method Enqueue(q: nat, delta: Event)
      requires QueuesOk(queues, ledgers, [Call(q, delta)] + scheduled)
      modifies this`queues, this`droppedEvents, this`ledgers, this`everAccepted
      ensures QueuesOk(queues, ledgers, scheduled) && queues.Keys == old(queues.Keys)
      ensures Enqueued(old(queues), old(ledgers), old(droppedEvents), old(everAccepted), Call(q, delta))
    {
      ghost var queues0, ledgers0 := queues, ledgers;
      assert ([Call(q, delta)] + scheduled)[0].queue == q;
      ghost var accepted := |queues[q]| < QUEUE_MAXSIZE;
      if |queues[q]| < QUEUE_MAXSIZE {
        queues := queues[q := queues[q] + [delta]];
        everAccepted := everAccepted + 1;
      } else {
        droppedEvents := droppedEvents + 1;
      }
      ledgers := Offered(ledgers, q, delta, accepted);
      assert Enqueued(queues0, ledgers0, old(droppedEvents), old(everAccepted), Call(q, delta));
      OfferKeeps(queues0, ledgers0, q, delta, scheduled, accepted);
    }

    /** `queue.get()` on a queue that is not empty. */
    method Get(q: nat) returns (delta: Event)
      requires Valid() && q in queues && queues[q] != []
      modifies this`queues, this`ledgers
      ensures Valid()
      ensures delta == old(queues)[q][0] && queues == old(queues)[q := old(queues)[q][1..]]
      ensures ledgers == Taken(old(ledgers), q, delta)
    {
      GetKeeps(queues, ledgers, scheduled, q);
      delta := queues[q][0];
      queues := queues[q := queues[q][1..]];
      ledgers := Taken(ledgers, q, delta);
    }
  }
}

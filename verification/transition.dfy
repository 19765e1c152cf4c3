/** The transitioner: it claims and publishes the steps that have become ready, and derives the document's
    status. */
module Transitions {
  import opened Model
  import opened Dag
  import opened Rules
  import opened Protocol
  import opened Claims
  import opened Stores

  // ---- protocol actions ----

  lemma ReadReadyLeads(c: Config, s: State, p: nat, step: StepName, seen: DocumentStatus)
    requires StandsAt(s, p, step, Triggering(seen))
    ensures var todo := ReadySuccessors(c.graph, DoneSet(s.rows));
      Leads(c, s, ReadReady(p), p, Become(s.procs[p].(stage := Claiming(seen, todo))), step, Claiming(seen, todo))
  {}

  lemma ClaimNextLeads(c: Config, s: State, p: nat, step: StepName, seen: DocumentStatus, todo: seq<StepName>)
    requires StandsAt(s, p, step, Claiming(seen, todo)) && todo != [] && todo[0] in s.rows
    ensures Leads(c, s, ClaimNext(p), p, ClaimNextEffect(s.rows, s.procs[p]), step,
                  if s.rows[todo[0]].status == Pending then Publishing(seen, todo[0], todo[1..])
                    else Claiming(seen, todo[1..]))
  {}

  lemma EndClaimsLeads(c: Config, s: State, p: nat, step: StepName, seen: DocumentStatus)
    requires StandsAt(s, p, step, Claiming(seen, []))
    ensures Leads(c, s, EndClaims(p), p, Become(s.procs[p].(stage := Recomputing(seen, ReadStatuses))), step,
                  Recomputing(seen, ReadStatuses))
  {}

  lemma PublishClaimedLeads(c: Config, s: State, p: nat, step: StepName, seen: DocumentStatus, n: StepName,
                            todo: seq<StepName>)
    requires StandsAt(s, p, step, Publishing(seen, n, todo)) && s.nextId !in s.procs
    ensures var e := PublishClaimedEffect(s.procs[p]);
      && IsEffect(c, s, PublishClaimed(p), p, e) && StandsAt(Apply(s, p, e), p, step, Claiming(seen, todo))
      && KeepsMessage(s.procs, p, e.self)
  {}

  lemma CandidatesAreRows(c: Config, s: State, p: nat, step: StepName, seen: DocumentStatus, todo: seq<StepName>)
    requires Inv(c, s) && StandsAt(s, p, step, Claiming(seen, todo))
    ensures forall n :: n in todo ==> n in s.rows
  {
    assert ProcOk(c.graph, s.rows, s.hist.everDone, s.procs[p]);
  }

  /** Effect `e` of the next action of `recompute_document_status` by `x` leaves `self`. */
  ghost predicate RecomputeLeads(c: Config, s: State, p: nat, e: Effect, self: Option<Proc>) {
    && IsEffect(c, s, RecomputeStep(p), p, e) && e.self == self && KeepsMessage(s.procs, p, self)
    && (if self.Some? then ActsAs(Apply(s, p, e), p, self.value) else p !in Apply(s, p, e).procs)
    && e.spawn == None && e.hook == None && e.write == NoWrite
  }

  /** `y` is `x`, further into its recomputation. */
  predicate StandsAgain(y: Proc, x: Proc) {
    x.Delivery? && y.Delivery? && y.step == x.step && y.returned == x.returned && y.stage.Recomputing?
  }

  /** The Document object that the session of `x` holds already. */
  function SessionDocument(x: Proc): Option<DocumentStatus> {
    if x.Delivery? && x.stage.Recomputing? then Some(x.stage.seen) else None
  }

  function AfterStatuses(x: Proc, derived: DocumentStatus): Proc
    requires RecomputeOf(x).Some?
  {
    match SessionDocument(x)
    case Some(stored) => WithRecompute(x, WriteDocument(derived, stored))
    case None => WithRecompute(x, ReadDocument(derived))
  }

  lemma ReadStatusesLeads(c: Config, s: State, p: nat, x: Proc)
    requires ActsAs(s, p, x) && RecomputeOf(x) == Some(ReadStatuses)
    ensures RecomputeLeads(c, s, p, RecomputeEffect(s.rows, s.doc, x),
                           Some(AfterStatuses(x, DeriveDocumentStatus(s.rows))))
    ensures var e := RecomputeEffect(s.rows, s.doc, x); e.emit == None && e.doc == None
  {}

  lemma ReadDocumentLeads(c: Config, s: State, p: nat, x: Proc, derived: DocumentStatus)
    requires ActsAs(s, p, x) && RecomputeOf(x) == Some(ReadDocument(derived))
    ensures RecomputeLeads(c, s, p, RecomputeEffect(s.rows, s.doc, x),
                           Some(WithRecompute(x, WriteDocument(derived, s.doc))))
    ensures var e := RecomputeEffect(s.rows, s.doc, x); e.emit == None && e.doc == None
  {}

  lemma WriteDocumentLeads(c: Config, s: State, p: nat, x: Proc, derived: DocumentStatus, stored: DocumentStatus)
    requires ActsAs(s, p, x) && RecomputeOf(x) == Some(WriteDocument(derived, stored))
    ensures RecomputeLeads(c, s, p, RecomputeEffect(s.rows, s.doc, x), AfterRecompute(x))
    ensures var e := RecomputeEffect(s.rows, s.doc, x);
      if derived == stored then e.emit == None && e.doc == None
      else e.emit == Some(DocEvent(derived)) && e.doc == Some(derived)
  {}

  // ---- what claiming a list does when nobody else acts ----

  function ClaimAll(rows: Rows, todo: seq<StepName>): Rows {
    if todo == [] then rows
    else if todo[0] in rows && rows[todo[0]].status == Pending
      then ClaimAll(rows[todo[0] := rows[todo[0]].(status := Queued)], todo[1..])
    else ClaimAll(rows, todo[1..])
  }

  function ClaimedAmong(rows: Rows, todo: seq<StepName>): seq<StepName> {
    if todo == [] then []
    else if todo[0] in rows && rows[todo[0]].status == Pending
      then [todo[0]] + ClaimedAmong(rows[todo[0] := rows[todo[0]].(status := Queued)], todo[1..])
    else ClaimedAmong(rows, todo[1..])
  }

  /** The rows and the bag once the rest of `todo` is claimed and published. */
  function Outlook(rows: Rows, messages: map<nat, Message>, nextId: nat, todo: seq<StepName>): (Rows, map<nat,
      Message>) {
    (ClaimAll(rows, todo), PublishAll(messages, nextId, ClaimedAmong(rows, todo)))
  }

  lemma OutlookStays(rows: Rows, messages: map<nat, Message>, nextId: nat, todo: seq<StepName>)
    requires todo != [] && todo[0] in rows
    ensures rows[todo[0]].status != Pending ==>
      Outlook(rows, messages, nextId, todo) == Outlook(rows, messages, nextId, todo[1..])
    ensures rows[todo[0]].status == Pending ==>
      Outlook(rows, messages, nextId, todo) ==
      Outlook(rows[todo[0] := rows[todo[0]].(status := Queued)], Publish(messages, nextId, todo[0]), nextId + 1,
              todo[1..])
  {
    if rows[todo[0]].status == Pending {
      var rest := ClaimedAmong(rows[todo[0] := rows[todo[0]].(status := Queued)], todo[1..]);
      assert ([todo[0]] + rest)[1..] == rest;
    }
  }

  lemma {:induction false} ClaimAllOnlyClaims(rows: Rows, todo: seq<StepName>, n: StepName)
    requires n in rows
    ensures ClaimAll(rows, todo).Keys == rows.Keys
    ensures ClaimAll(rows, todo)[n] ==
      if n in todo && rows[n].status == Pending then rows[n].(status := Queued) else rows[n]
  {
    if todo != [] {
      if todo[0] in rows && rows[todo[0]].status == Pending {
        ClaimAllOnlyClaims(rows[todo[0] := rows[todo[0]].(status := Queued)], todo[1..], n);
      } else {
        ClaimAllOnlyClaims(rows, todo[1..], n);
      }
    }
  }

  // ---- `claim_step` and `trigger_successors` ----

  /** `trigger_successors` reads the statuses. */
  method ReadSuccessors(store: Store, p: nat, step: StepName, seen: DocumentStatus) returns (r: Attempt<seq<StepName>>)
    requires store.Valid() && store.At(p, step, Triggering(seen))
    modifies store`run
    ensures store.Valid() && Prolongs(old(store.run), store.run, p)
    ensures r.Raised? ==> store.run == old(store.run)
    ensures r.Returned? ==>
      && r.value == ReadySuccessors(store.config.graph, DoneSet(store.rows))
      && store.At(p, step, Claiming(seen, r.value))
  {
    hide OnRun, IsEffect, Continues, Grows, BagMatches;
    if * {
      return Raised;
    }
    ghost var s := Last(store.run);
    var todo := ReadySuccessors(store.config.graph, DoneSet(store.rows));
    ReadReadyLeads(store.config, s, p, step, seen);
    store.Observe(ReadReady(p), p, Become(s.procs[p].(stage := Claiming(seen, todo))));
    r := Returned(todo);
  }

  /** `claim_step` */
  method ClaimStep(store: Store, p: nat, step: StepName, seen: DocumentStatus, todo: seq<StepName>)
    returns (r: Attempt<bool>)
    requires store.Valid() && store.At(p, step, Claiming(seen, todo)) && todo != [] && todo[0] in store.rows
    modifies store`run, store`rows, store`events
    ensures store.Valid() && Prolongs(old(store.run), store.run, p)
    ensures r.Raised? ==> store.run == old(store.run)
    ensures r.Returned? ==>
      && r.value == (old(store.rows)[todo[0]].status == Pending)
      && store.At(p, step, if r.value then Publishing(seen, todo[0], todo[1..]) else Claiming(seen, todo[1..]))
      && store.rows == if r.value then old(store.rows)[todo[0] := old(store.rows)[todo[0]].(status := Queued)]
        else old(store.rows)
  {
    hide OnRun, IsEffect, Continues, Grows, BagMatches;
    if * {
      return Raised;
    }
    ghost var s := Last(store.run);
    ghost var e := ClaimNextEffect(s.rows, s.procs[p]);
    ClaimNextLeads(store.config, s, p, step, seen, todo);
    if store.rows[todo[0]].status == Pending {
      store.Commit(todo[0], store.rows[todo[0]].(status := Queued), Some(StepEvent(todo[0], Queued)), ClaimNext(p), p,
                   e);
      r := Returned(true);
    } else {
      store.Observe(ClaimNext(p), p, e);
      r := Returned(false);
    }
  }

  lemma CandidatesExist(store: Store, p: nat, step: StepName, seen: DocumentStatus, todo: seq<StepName>)
    requires store.Valid() && store.At(p, step, Claiming(seen, todo))
    ensures forall n :: n in todo ==> n in store.rows
  {
    RunInv(store.config, store.run, |store.run.states| - 1);
    CandidatesAreRows(store.config, Last(store.run), p, step, seen, todo);
  }

  method PublishNext(store: Store, p: nat, step: StepName, seen: DocumentStatus, n: StepName,
                     ghost todo: seq<StepName>) returns (r: Attempt<()>)
    requires store.Valid() && store.At(p, step, Publishing(seen, n, todo))
    modifies store`run, store`messages, store`nextId
    ensures store.Valid() && Prolongs(old(store.run), store.run, p)
    ensures KeepsBag(old(store.messages), store.messages)
    ensures r.Raised? ==> store.run == old(store.run)
    ensures r.Returned? ==>
      && store.At(p, step, Claiming(seen, todo))
      && store.messages == Publish(old(store.messages), old(store.nextId), n) && store.nextId == old(store.nextId) + 1
  {
    hide OnRun, IsEffect, Continues, Grows, BagMatches;
    if * {
      return Raised;
    }
    store.NextIdIsFree();
    ghost var e := PublishClaimedEffect(Last(store.run).procs[p]);
    PublishClaimedLeads(store.config, Last(store.run), p, step, seen, n, todo);
    store.PublishStep(n, PublishClaimed(p), p, e);
    r := Returned(());
  }

  ghost method FinishClaims(store: Store, p: nat, step: StepName, seen: DocumentStatus)
    requires store.Valid() && store.At(p, step, Claiming(seen, []))
    modifies store`run
    ensures store.Valid() && Prolongs(old(store.run), store.run, p)
    ensures store.At(p, step, Recomputing(seen, ReadStatuses))
  {
    hide OnRun, IsEffect, Continues, Grows, BagMatches;
    EndClaimsLeads(store.config, Last(store.run), p, step, seen);
    store.Observe(EndClaims(p), p, Become(Last(store.run).procs[p].(stage := Recomputing(seen, ReadStatuses))));
  }

  /** One round of the loop of `trigger_successors`. */
  method ClaimAndPublish(store: Store, p: nat, step: StepName, seen: DocumentStatus, todo: seq<StepName>)
    returns (r: Attempt<()>)
    requires store.Valid() && store.At(p, step, Claiming(seen, todo)) && todo != []
    modifies store`run, store`rows, store`events, store`messages, store`nextId
    ensures store.Valid() && Prolongs(old(store.run), store.run, p)
    ensures KeepsBag(old(store.messages), store.messages)
    ensures r.Raised? ==> store.Underway(p, step)
    ensures r.Returned? ==>
      && store.At(p, step, Claiming(seen, todo[1..]))
      && Outlook(store.rows, store.messages, store.nextId, todo[1..]) ==
          Outlook(old(store.rows), old(store.messages), old(store.nextId), todo)
  {
    hide OnRun, IsEffect, Continues, Grows, BagMatches, Outlook, Publish;
    CandidatesExist(store, p, step, seen, todo);
    assert todo[0] in todo;
    OutlookStays(store.rows, store.messages, store.nextId, todo);
    var claimed :- ClaimStep(store, p, step, seen, todo);
    if claimed {
      var _ :- PublishNext(store, p, step, seen, todo[0], todo[1..]);
    }
    r := Returned(());
  }

  /** `trigger_successors`: claim every ready step, and publish those that were won. */
  method TriggerSuccessors(store: Store, p: nat, step: StepName, seen: DocumentStatus) returns (r: Attempt<()>)
    requires store.Valid() && store.At(p, step, Triggering(seen))
    modifies store`run, store`rows, store`events, store`messages, store`nextId
    ensures store.Valid() && Prolongs(old(store.run), store.run, p)
    ensures KeepsBag(old(store.messages), store.messages)
    ensures r.Raised? ==> store.Underway(p, step)
    ensures r.Returned? ==>
      && store.At(p, step, Recomputing(seen, ReadStatuses))
      && (store.rows, store.messages) == Outlook(old(store.rows), old(store.messages), old(store.nextId),
                                                 ReadySuccessors(store.config.graph, DoneSet(old(store.rows))))
  {
    hide OnRun, IsEffect, Continues, Grows, BagMatches, ReadySuccessors, DoneSet;
    var ready :- ReadSuccessors(store, p, step, seen);
    var todo := ready;
    while todo != []
      invariant store.Valid() && Prolongs(old(store.run), store.run, p) && KeepsBag(old(store.messages), store.messages)
      invariant store.At(p, step, Claiming(seen, todo))
      invariant Outlook(store.rows, store.messages, store.nextId, todo) ==
          Outlook(old(store.rows), old(store.messages), old(store.nextId), ready)
      decreases |todo|
    {
      var _ :- ClaimAndPublish(store, p, step, seen, todo);
      todo := todo[1..];
    }
    FinishClaims(store, p, step, seen);
    r := Returned(());
  }

  // ---- `recompute_document_status` ----

  method DeriveStatus(store: Store, ghost p: nat, ghost x: Proc) returns (r: Attempt<DocumentStatus>)
    requires store.Valid() && store.Acts(p, x) && RecomputeOf(x) == Some(ReadStatuses)
    modifies store`run
    ensures store.Valid() && Prolongs(old(store.run), store.run, p)
    ensures r.Raised? ==> store.run == old(store.run)
    ensures r.Returned? ==> r.value == DeriveDocumentStatus(store.rows) && store.Acts(p, AfterStatuses(x, r.value))
  {
    hide OnRun, IsEffect, Continues, Grows, BagMatches;
    if * {
      return Raised;
    }
    ReadStatusesLeads(store.config, Last(store.run), p, x);
    store.Observe(RecomputeStep(p), p, RecomputeEffect(Last(store.run).rows, Last(store.run).doc, x));
    r := Returned(DeriveDocumentStatus(store.rows));
  }

  method GetDocument(store: Store, ghost p: nat, ghost x: Proc, ghost derived: DocumentStatus)
    returns (r: Attempt<DocumentStatus>)
    requires store.Valid() && store.Acts(p, x) && RecomputeOf(x) == Some(ReadDocument(derived))
    modifies store`run
    ensures store.Valid() && Prolongs(old(store.run), store.run, p)
    ensures r.Raised? ==> store.run == old(store.run)
    ensures r.Returned? ==> r.value == store.doc && store.Acts(p, WithRecompute(x, WriteDocument(derived, r.value)))
  {
    hide OnRun, IsEffect, Continues, Grows, BagMatches;
    if * {
      return Raised;
    }
    ReadDocumentLeads(store.config, Last(store.run), p, x, derived);
    store.Observe(RecomputeStep(p), p, RecomputeEffect(Last(store.run).rows, Last(store.run).doc, x));
    r := Returned(store.doc);
  }

  /** Write the status if it differs from the one the session holds, and commit. */
  method StoreStatus(store: Store, ghost p: nat, ghost x: Proc, derived: DocumentStatus, stored: DocumentStatus)
    returns (r: Attempt<()>)
    requires store.Valid() && store.Acts(p, x) && RecomputeOf(x) == Some(WriteDocument(derived, stored))
    modifies store`run, store`doc, store`events
    ensures store.Valid() && Prolongs(old(store.run), store.run, p)
    ensures r.Raised? ==> store.run == old(store.run)
    ensures r.Returned? && AfterRecompute(x).Some? ==> store.Acts(p, AfterRecompute(x).value)
    ensures r.Returned? ==> store.doc == if derived == stored then old(store.doc) else derived
  {
    hide OnRun, IsEffect, Continues, Grows, BagMatches;
    if * {
      return Raised;
    }
    ghost var e := RecomputeEffect(Last(store.run).rows, Last(store.run).doc, x);
    WriteDocumentLeads(store.config, Last(store.run), p, x, derived, stored);
    BagStays(store.messages, Last(store.run), p, e);
    store.Take(RecomputeStep(p), p, e);
    if derived != stored {
      store.doc := derived;
      store.events := store.events + [DocEvent(derived)];
    }
    r := Returned(());
  }

  /** `cached` is the Document that the session loaded before, if it did. */
  method RecomputeDocumentStatus(store: Store, ghost p: nat, ghost x: Proc, cached: Option<DocumentStatus>)
    returns (r: Attempt<DocumentStatus>)
    requires store.Valid() && store.Acts(p, x) && RecomputeOf(x) == Some(ReadStatuses) && cached == SessionDocument(x)
    modifies store`run, store`doc, store`events
    ensures store.Valid() && Prolongs(old(store.run), store.run, p)
    ensures r.Raised? ==> Recomputes(store, p, x)
    ensures r.Returned? && AfterRecompute(x).Some? ==> store.Acts(p, AfterRecompute(x).value)
    ensures r.Returned? ==> r.value == DeriveDocumentStatus(store.rows)
    ensures r.Returned? ==> store.doc == if cached == Some(r.value) then old(store.doc) else r.value
  {
    hide OnRun, IsEffect, Continues, Grows, BagMatches;
    var derived :- DeriveStatus(store, p, x);
    var document := cached;
    ghost var x1 := AfterStatuses(x, derived);
    if document == None {
      var stored :- GetDocument(store, p, x1, derived);
      document := Some(stored);
      x1 := WithRecompute(x1, WriteDocument(derived, stored));
    }
    var _ :- StoreStatus(store, p, x1, derived, document.value);
    r := Returned(derived);
  }

  /** The actor is still at its recomputation. */
  ghost predicate Recomputes(store: Store, p: nat, x: Proc)
    reads store
  {
    && store.run.states != [] && p in Last(store.run).procs && RecomputeOf(Last(store.run).procs[p]).Some?
    && (x.Delivery? ==> StandsAgain(Last(store.run).procs[p], x))
  }
}

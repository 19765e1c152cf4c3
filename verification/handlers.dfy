/** The step handlers. */
module Handlers {
  import opened Model
  import opened Dag
  import opened Rules
  import opened Protocol
  import opened Stores
  import opened Transitions

  datatype HandlerAction = ACK | RETRY

  // ---- protocol actions ----

  lemma DeliverLeads(c: Config, s: State, p: nat, step: StepName)
    requires StandsAt(s, p, step, Waiting)
    ensures Leads(c, s, Deliver(p), p, DeliverEffect(s.rows, s.procs[p]), step,
                  if TerminalForRun(s.rows[step].status) then Acking else Loaded(s.rows))
  {}

  lemma LoadDocumentLeads(c: Config, s: State, p: nat, step: StepName, byName: Rows)
    requires StandsAt(s, p, step, Loaded(byName)) && step in byName
    ensures Leads(c, s, Action.LoadDocument(p), p, LoadDocumentEffect(s.doc, s.procs[p]), step,
                  if s.doc == Failed then Acking else Checked(byName, s.doc))
  {}

  lemma MarkRunningLeads(c: Config, s: State, p: nat, step: StepName, byName: Rows, seen: DocumentStatus)
    requires StandsAt(s, p, step, Checked(byName, seen)) && step in byName
    ensures Leads(c, s, Action.MarkRunning(p), p, MarkRunningEffect(s.rows[step], s.procs[p]), step,
                  Executing(byName[step := byName[step].(status := Running)], seen))
  {}

  lemma ExecuteOkLeads(c: Config, s: State, p: nat, step: StepName, byName: Rows, seen: DocumentStatus, output: Output)
    requires StandsAt(s, p, step, Executing(byName, seen)) && TransformInput(step, byName).Some?
    requires Produces(step, output) && (output.JobHandle? ==> output.job !in s.hist.issued)
    ensures Leads(c, s, ExecuteOk(p, output), p, ExecuteOkEffect(s.procs[p], output), step,
                  Saving(byName, seen, output))
  {}

  lemma ExecuteFailLeads(c: Config, s: State, p: nat, step: StepName, byName: Rows, seen: DocumentStatus)
    requires StandsAt(s, p, step, Executing(byName, seen))
    ensures Leads(c, s, ExecuteFail(p), p, Become(s.procs[p].(stage := Failing(byName, seen))), step,
                  Failing(byName, seen))
  {}

  lemma SaveLeads(c: Config, s: State, p: nat, step: StepName, byName: Rows, seen: DocumentStatus, output: Output)
    requires StandsAt(s, p, step, Saving(byName, seen, output)) && step in byName
    ensures Leads(c, s, Save(p), p, SaveEffect(s.rows[step], s.procs[p]), step,
                  if Saved(byName[step], output).status == Done then Triggering(seen) else Acking)
  {}

  lemma FailAttemptLeads(c: Config, s: State, p: nat, step: StepName, byName: Rows, seen: DocumentStatus)
    requires StandsAt(s, p, step, Failing(byName, seen)) && step in byName
    ensures Leads(c, s, FailAttempt(p), p, FailAttemptEffect(s.rows[step], s.procs[p], c.maxAttempts), step,
                  if FailedOnce(byName[step], c.maxAttempts).status == Error
                  then Recomputing(seen, ReadStatuses) else Nacking)
  {}

  // ---- what one handler call does when nobody else acts ----

  datatype Handled = Handled(rows: Rows, doc: DocumentStatus, published: seq<StepName>, action: HandlerAction)

  /** `None` where transforming the inputs or the step function raises. */
  function ExecuteAlone(rows: Rows, step: StepName, executes: StepInput -> Option<Output>): Option<Output> {
    match TransformInput(step, rows)
    case None => None
    case Some(input) => executes(input)
  }

  function FailedAlone(c: Config, rows: Rows, doc: DocumentStatus, step: StepName): Handled
    requires step in rows
  {
    var failed := rows[step := FailedOnce(rows[step], c.maxAttempts)];
    if failed[step].status == Error then Handled(failed, DeriveDocumentStatus(failed), [], ACK)
    else Handled(failed, doc, [], RETRY)
  }

  function SavedAlone(c: Config, rows: Rows, doc: DocumentStatus, step: StepName, output: Output): Handled
    requires step in rows
  {
    var saved := rows[step := Saved(rows[step], output)];
    if saved[step].status != Done then Handled(saved, doc, [], ACK)
    else
      var ready := ReadySuccessors(c.graph, DoneSet(saved));
      var claimed := ClaimAll(saved, ready);
      Handled(claimed, DeriveDocumentStatus(claimed), ClaimedAmong(saved, ready), ACK)
  }

  function RunAlone(c: Config, rows: Rows, doc: DocumentStatus, step: StepName,
                    executes: StepInput -> Option<Output>): Handled
    requires step in rows
  {
    var running := rows[step := rows[step].(status := Running)];
    match ExecuteAlone(running, step, executes)
    case None => FailedAlone(c, running, doc, step)
    case Some(output) => SavedAlone(c, running, doc, step, output)
  }

  function HandledAlone(c: Config, rows: Rows, doc: DocumentStatus, step: StepName,
                        executes: StepInput -> Option<Output>): Handled
    requires step in rows
  {
    if TerminalForRun(rows[step].status) || doc == Failed then Handled(rows, doc, [], ACK)
    else RunAlone(c, rows, doc, step, executes)
  }

  /** A message goes back to its queue exactly when its step was to run, raised, and has attempts left; it
      is consumed only when its step needs no further run or its document has failed. */
  lemma VerdictMeans(c: Config, rows: Rows, doc: DocumentStatus, step: StepName, executes: StepInput -> Option<Output>)
    requires step in rows && c.maxAttempts >= 1
    ensures var h, row := HandledAlone(c, rows, doc, step, executes), rows[step];
      && (h.action == RETRY <==>
            && !TerminalForRun(row.status) && doc != Failed && row.attempts + 1 < c.maxAttempts
            && ExecuteAlone(rows[step := row.(status := Running)], step, executes) == None)
      && (h.action == RETRY ==>
            h.rows == rows[step := row.(status := Queued, attempts := row.attempts + 1)] && h.doc == doc)
      && (h.action == ACK ==> step in h.rows && (TerminalForRun(h.rows[step].status) || h.doc == Failed))
  {
    if !TerminalForRun(rows[step].status) && doc != Failed {
      var running := rows[step := rows[step].(status := Running)];
      match ExecuteAlone(running, step, executes)
      case None =>
        assert running[step := FailedOnce(running[step], c.maxAttempts)] ==
            rows[step := FailedOnce(running[step], c.maxAttempts)];
      case Some(output) =>
        var saved := running[step := Saved(running[step], output)];
        ClaimAllOnlyClaims(saved, ReadySuccessors(c.graph, DoneSet(saved)), step);
    }
  }

  /** What handling a runnable step does to the rows, in plain terms: the step's row holds what its function
      returned, or counts the failure, and other rows are claimed or stay. */
  lemma HandlingStoresOutput(c: Config, rows: Rows, doc: DocumentStatus, step: StepName,
                             executes: StepInput -> Option<Output>)
    requires step in rows && !TerminalForRun(rows[step].status) && doc != Failed
    ensures var h := HandledAlone(c, rows, doc, step, executes);
      var output := ExecuteAlone(rows[step := rows[step].(status := Running)], step, executes);
      && h.rows.Keys == rows.Keys
      && (output.Some? ==> SavedBy(rows[step], output.value, h.rows[step]))
      && (output.None? ==> CountedBy(rows[step], c.maxAttempts, h.rows[step]))
      && (forall n :: n in rows && n != step ==> StaysOrIsClaimed(rows[n], h.rows[n]))
  {
    hide TransformInput, DeriveDocumentStatus, ReadySuccessors, DoneSet, ClaimAll, ClaimedAmong;
    var running := rows[step := rows[step].(status := Running)];
    match ExecuteAlone(running, step, executes)
    case None => {}
    case Some(output) =>
      var saved := running[step := Saved(running[step], output)];
      forall n | n in rows
        ensures var h := ClaimAll(saved, ReadySuccessors(c.graph, DoneSet(saved)));
          h.Keys == saved.Keys && StaysOrIsClaimed(saved[n], h[n])
      {
        ClaimAllOnlyClaims(saved, ReadySuccessors(c.graph, DoneSet(saved)), n);
      }
  }

  predicate StaysOrIsClaimed(before: Row, after: Row) {
    after == before || (before.status == Pending && after == before.(status := Queued))
  }

  /** Handling a message whose step already finished, or whose document failed, changes nothing. */
  lemma HandlingAgainChangesNothing(c: Config, rows: Rows, doc: DocumentStatus, step: StepName,
                                    executes: StepInput -> Option<Output>, again: StepInput -> Option<Output>)
    requires step in rows && c.maxAttempts >= 1
    ensures var h := HandledAlone(c, rows, doc, step, executes);
      h.action == ACK ==>
        step in h.rows && HandledAlone(c, h.rows, h.doc, step, again) == Handled(h.rows, h.doc, [], ACK)
  {
    VerdictMeans(c, rows, doc, step, executes);
  }

  // ---- sections of a handler ----

  /** `_load_steps` */
  method LoadSteps(store: Store, p: nat, step: StepName) returns (r: Attempt<Rows>)
    requires store.Valid() && store.At(p, step, Waiting)
    modifies store`run
    ensures store.Valid() && Prolongs(old(store.run), store.run, p)
    ensures store.Issued() == old(store.Issued())
    ensures store.At(p, step, if TerminalForRun(store.rows[step].status) then Acking else Loaded(store.rows))
    ensures r.Returned? ==> r.value == store.rows
  {
    hide OnRun, IsEffect, Continues, Grows, BagMatches;
    ghost var s := Last(store.run);
    ghost var e := DeliverEffect(s.rows, s.procs[p]);
    DeliverLeads(store.config, s, p, step);
    store.Observe(Deliver(p), p, e);
    if * {
      return Raised;
    }
    r := Returned(store.rows);
  }

  /** `session.get(Document, ...)` */
  method LoadDocument(store: Store, p: nat, step: StepName, byName: Rows) returns (r: Attempt<DocumentStatus>)
    requires store.Valid() && store.At(p, step, Loaded(byName)) && step in byName
    modifies store`run
    ensures store.Valid() && Prolongs(old(store.run), store.run, p)
    ensures store.Issued() == old(store.Issued())
    ensures r.Raised? ==> store.run == old(store.run)
    ensures r.Returned? ==>
      && r.value == store.doc
      && store.At(p, step, if store.doc == Failed then Acking else Checked(byName, store.doc))
  {
    hide OnRun, IsEffect, Continues, Grows, BagMatches;
    if * {
      return Raised;
    }
    ghost var s := Last(store.run);
    ghost var e := LoadDocumentEffect(s.doc, s.procs[p]);
    LoadDocumentLeads(store.config, s, p, step, byName);
    store.Observe(Action.LoadDocument(p), p, e);
    r := Returned(store.doc);
  }

  /** The commit that marks the step RUNNING; the session's row object changes with it. */
  method MarkRunning(store: Store, p: nat, step: StepName, byName: Rows, seen: DocumentStatus)
    returns (r: Attempt<Rows>)
    requires store.Valid() && store.At(p, step, Checked(byName, seen)) && step in byName
    modifies store`run, store`rows, store`events
    ensures store.Valid() && Prolongs(old(store.run), store.run, p)
    ensures store.Issued() == old(store.Issued())
    ensures r.Raised? ==> store.run == old(store.run)
    ensures r.Returned? ==>
      && var running := byName[step].(status := Running);
      && r.value == byName[step := running] && store.At(p, step, Executing(r.value, seen))
      && store.rows == old(store.rows)[step := Flush(byName[step], running, old(store.rows)[step])]
  {
    hide OnRun, IsEffect, Continues, Grows, BagMatches;
    if * {
      return Raised;
    }
    ghost var s := Last(store.run);
    ghost var e := MarkRunningEffect(s.rows[step], s.procs[p]);
    MarkRunningLeads(store.config, s, p, step, byName, seen);
    var running := byName[step].(status := Running);
    store.Commit(step, Flush(byName[step], running, store.rows[step]), Some(StepEvent(step, Running)),
                 Action.MarkRunning(p), p, e);
    r := Returned(byName[step := running]);
  }

  /** The step function returns what the step's outputs look like, and the partner hands out new job ids. */
  ghost predicate CanExecute(store: Store, step: StepName, executes: StepInput -> Option<Output>)
    reads store
    requires store.run.states != []
  {
    forall i :: executes(i).Some? ==>
      && Produces(step, executes(i).value)
      && (executes(i).value.JobHandle? ==> executes(i).value.job !in store.Issued())
  }

  /** Transform the inputs and call the step function; `None` is an exception. */
  method Execute(store: Store, p: nat, step: StepName, byName: Rows, seen: DocumentStatus,
                 executes: StepInput -> Option<Output>)
    returns (output: Option<Output>)
    requires store.Valid() && store.At(p, step, Executing(byName, seen))
    requires CanExecute(store, step, executes)
    modifies store`run
    ensures store.Valid() && Prolongs(old(store.run), store.run, p)
    ensures output == ExecuteAlone(byName, step, executes)
    ensures store.At(p, step, if output.Some? then Saving(byName, seen, output.value) else Failing(byName, seen))
  {
    hide OnRun, IsEffect, Continues, Grows, BagMatches;
    var input := TransformInput(step, byName);
    output := if input.Some? then executes(input.value) else None;
    ghost var s := Last(store.run);
    if output.Some? {
      ghost var e := ExecuteOkEffect(s.procs[p], output.value);
      ExecuteOkLeads(store.config, s, p, step, byName, seen, output.value);
      store.Observe(ExecuteOk(p, output.value), p, e);
    } else {
      ghost var e := Become(s.procs[p].(stage := Failing(byName, seen)));
      ExecuteFailLeads(store.config, s, p, step, byName, seen);
      store.Observe(ExecuteFail(p), p, e);
    }
  }

  /** `save_output`, in both its forms. */
  method SaveOutput(store: Store, p: nat, step: StepName, byName: Rows, seen: DocumentStatus, output: Output)
    returns (r: Attempt<Row>)
    requires store.Valid() && store.At(p, step, Saving(byName, seen, output)) && step in byName
    modifies store`run, store`rows, store`events
    ensures store.Valid() && Prolongs(old(store.run), store.run, p)
    ensures r.Raised? ==> store.run == old(store.run)
    ensures r.Returned? ==>
      && r.value == Saved(byName[step], output) && SavedBy(byName[step], output, r.value)
      && store.At(p, step, if r.value.status == Done then Triggering(seen) else Acking)
      && store.rows == old(store.rows)[step := Flush(byName[step], r.value, old(store.rows)[step])]
      && (byName[step] == old(store.rows)[step] ==> SavedBy(old(store.rows)[step], output, store.rows[step]))
  {
    hide OnRun, IsEffect, Continues, Grows, BagMatches;
    if * {
      return Raised;
    }
    ghost var s := Last(store.run);
    ghost var e := SaveEffect(s.rows[step], s.procs[p]);
    SaveLeads(store.config, s, p, step, byName, seen, output);
    var row := byName[step];
    if output.JobHandle? {
      row := row.(externalJobId := Some(output.job), status := AwaitingCallback);
    } else {
      row := row.(result := Some(output), status := Done);
    }
    store.Commit(step, Flush(byName[step], row, store.rows[step]), Some(StepEvent(step, row.status)), Save(p), p, e);
    r := Returned(row);
  }

  /** The commit of `_on_failure`. */
  method CountFailure(store: Store, p: nat, step: StepName, byName: Rows, seen: DocumentStatus)
    returns (r: Attempt<Row>)
    requires store.Valid() && store.At(p, step, Failing(byName, seen)) && step in byName
    modifies store`run, store`rows, store`events
    ensures store.Valid() && Prolongs(old(store.run), store.run, p)
    ensures r.Raised? ==> store.run == old(store.run)
    ensures r.Returned? ==>
      && r.value == FailedOnce(byName[step], store.config.maxAttempts)
      && store.At(p, step, if r.value.status == Error then Recomputing(seen, ReadStatuses) else Nacking)
      && store.rows == old(store.rows)[step := Flush(byName[step], r.value, old(store.rows)[step])]
  {
    hide OnRun, IsEffect, Continues, Grows, BagMatches;
    if * {
      return Raised;
    }
    ghost var s := Last(store.run);
    ghost var e := FailAttemptEffect(s.rows[step], s.procs[p], store.config.maxAttempts);
    FailAttemptLeads(store.config, s, p, step, byName, seen);
    var row := byName[step].(attempts := byName[step].attempts + 1);
    var notify := None;
    if row.attempts >= store.config.maxAttempts {
      row := row.(status := Error);
      notify := Some(StepEvent(step, Error));
    } else {
      row := row.(status := Queued);
    }
    store.Commit(step, Flush(byName[step], row, store.rows[step]), notify, FailAttempt(p), p, e);
    r := Returned(row);
  }

  // ---- `handle` ----

  /** The stored status after a recomputation by a session that holds `seen`: a status that equals the one
      the session holds is not written. */
  function Recomputed(seen: DocumentStatus, stored: DocumentStatus, rows: Rows): DocumentStatus {
    if DeriveDocumentStatus(rows) == seen then stored else DeriveDocumentStatus(rows)
  }

  method RecomputeInHandler(store: Store, p: nat, step: StepName, seen: DocumentStatus) returns (r: Attempt<()>)
    requires store.Valid() && store.At(p, step, Recomputing(seen, ReadStatuses))
    modifies store`run, store`doc, store`events
    ensures store.Valid() && Prolongs(old(store.run), store.run, p)
    ensures r.Raised? ==> store.Underway(p, step)
    ensures r.Returned? ==> store.At(p, step, Acking) && store.doc == Recomputed(seen, old(store.doc), store.rows)
  {
    hide OnRun, IsEffect, Continues, Grows, BagMatches, DeriveDocumentStatus;
    ghost var x := Last(store.run).procs[p];
    var status := RecomputeDocumentStatus(store, p, x, Some(seen));
    if status.Raised? {
      assert StandsAt(Last(store.run), p, step, Last(store.run).procs[p].stage);
      return Raised;
    }
    r := Returned(());
  }

  /** Rows, status, bag and verdict are what `h` says, starting from the given bag. */
  ghost predicate Did(store: Store, h: Handled, messages0: map<nat, Message>, nextId0: nat, action: HandlerAction)
    reads store
  {
    && store.rows == h.rows && store.doc == h.doc
    && store.messages == PublishAll(messages0, nextId0, h.published) && action == h.action
  }

  /** The rows after a session that had loaded `byName` commits `row` for `step`. */
  function Flushed(rows: Rows, byName: Rows, step: StepName, row: Row): Rows
    requires step in rows && step in byName
  {
    rows[step := Flush(byName[step], row, rows[step])]
  }

  /** `_on_failure`, for a session that may hold outdated rows and an outdated Document. */
  method OnFailure(store: Store, p: nat, step: StepName, byName: Rows, seen: DocumentStatus)
    returns (r: Attempt<HandlerAction>)
    requires store.Valid() && store.At(p, step, Failing(byName, seen)) && step in byName
    modifies store`run, store`rows, store`doc, store`events
    ensures store.Valid() && Prolongs(old(store.run), store.run, p)
    ensures r.Raised? ==> store.Underway(p, step)
    ensures r.Returned? ==>
      && var failed := FailedOnce(byName[step], store.config.maxAttempts);
      && r.value == (if failed.status == Error then ACK else RETRY)
      && store.At(p, step, if r.value == ACK then Acking else Nacking)
      && store.rows == Flushed(old(store.rows), byName, step, failed)
      && store.doc == if r.value == ACK then Recomputed(seen, old(store.doc), store.rows) else old(store.doc)
  {
    hide OnRun, IsEffect, Continues, Grows, BagMatches, DeriveDocumentStatus;
    var row :- CountFailure(store, p, step, byName, seen);
    if row.status == Error {
      var _ :- RecomputeInHandler(store, p, step, seen);
      return Returned(ACK);
    }
    r := Returned(RETRY);
  }

  /** The rest of `handle` after a successful execution. */
  method Finish(store: Store, p: nat, step: StepName, byName: Rows, seen: DocumentStatus, output: Output)
    returns (r: Attempt<HandlerAction>)
    requires store.Valid() && store.At(p, step, Saving(byName, seen, output)) && step in byName
    modifies store`run, store`rows, store`doc, store`events, store`messages, store`nextId
    ensures store.Valid() && Prolongs(old(store.run), store.run, p)
    ensures KeepsBag(old(store.messages), store.messages)
    ensures r.Raised? ==> store.Underway(p, step)
    ensures r.Returned? ==>
      && var saved := Saved(byName[step], output);
      && var flushed := Flushed(old(store.rows), byName, step, saved);
      && r.value == ACK && store.At(p, step, Acking)
      && (saved.status == Done ==>
            && (store.rows, store.messages) ==
               Outlook(flushed, old(store.messages), old(store.nextId),
                       ReadySuccessors(store.config.graph, DoneSet(flushed)))
            && store.doc == Recomputed(seen, old(store.doc), store.rows))
      && (saved.status != Done ==>
            store.rows == flushed && store.messages == old(store.messages) && store.doc == old(store.doc))
  {
    hide OnRun, IsEffect, Continues, Grows, BagMatches, DeriveDocumentStatus, ReadySuccessors, Outlook, DoneSet;
    var row :- SaveOutput(store, p, step, byName, seen, output);
    if row.status == Done {
      var _ :- TriggerSuccessors(store, p, step, seen);
      var _ :- RecomputeInHandler(store, p, step, seen);
    }
    r := Returned(ACK);
  }

  /** For a session whose rows and Document are the stored ones, `OnFailure` and `Finish` come to `RunAlone`. */
  lemma AloneIsWhatItDoes(c: Config, rows: Rows, doc: DocumentStatus, step: StepName,
                          executes: StepInput -> Option<Output>,
                          messages: map<nat, Message>, nextId: nat)
    requires step in rows
    ensures var running := rows[step := rows[step].(status := Running)];
      var output, h := ExecuteAlone(running, step, executes), RunAlone(c, rows, doc, step, executes);
      if output == None then
        var failed := FailedOnce(running[step], c.maxAttempts);
        var flushed := Flushed(running, running, step, failed);
        h == Handled(flushed, if failed.status == Error then Recomputed(doc, doc, flushed) else doc, [],
                     if failed.status == Error then ACK else RETRY)
      else
        var saved := Saved(running[step], output.value);
        var flushed := Flushed(running, running, step, saved);
        && h.action == ACK
        && (saved.status != Done ==> h == Handled(flushed, doc, [], ACK))
        && (saved.status == Done ==>
              && (h.rows, PublishAll(messages, nextId, h.published)) ==
                 Outlook(flushed, messages, nextId, ReadySuccessors(c.graph, DoneSet(flushed)))
              && h.doc == Recomputed(doc, doc, h.rows))
  {
    hide TransformInput, DeriveDocumentStatus, ReadySuccessors, DoneSet, ClaimAll, ClaimedAmong;
    var running := rows[step := rows[step].(status := Running)];
    assert forall row :: Flushed(running, running, step, row) == running[step := row];
  }

  /** Rows, status, bag and verdict after executing and saving or counting a failure, when nobody else acts. */
  ghost predicate Ended(store: Store, byName: Rows, doc: DocumentStatus, step: StepName,
                        executes: StepInput -> Option<Output>,
                        messages0: map<nat, Message>, nextId0: nat, action: HandlerAction)
    reads store
    requires step in byName
  {
    if ExecuteAlone(byName, step, executes) == None then
      var failed := FailedOnce(byName[step], store.config.maxAttempts);
      && action == (if failed.status == Error then ACK else RETRY)
      && store.rows == Flushed(byName, byName, step, failed) && store.messages == messages0
      && store.doc == if action == ACK then Recomputed(doc, doc, store.rows) else doc
    else
      var saved := Saved(byName[step], ExecuteAlone(byName, step, executes).value);
      var flushed := Flushed(byName, byName, step, saved);
      && action == ACK
      && (saved.status == Done ==>
            && (store.rows, store.messages) ==
               Outlook(flushed, messages0, nextId0, ReadySuccessors(store.config.graph, DoneSet(flushed)))
            && store.doc == Recomputed(doc, doc, store.rows))
      && (saved.status != Done ==> store.rows == flushed && store.messages == messages0 && store.doc == doc)
  }

  method ExecuteAndFinish(store: Store, p: nat, step: StepName, byName: Rows, document: DocumentStatus,
                          executes: StepInput -> Option<Output>)
    returns (r: Attempt<HandlerAction>)
    requires store.Valid() && store.At(p, step, Executing(byName, document)) && step in byName
    requires CanExecute(store, step, executes)
    modifies store`run, store`rows, store`doc, store`events, store`messages, store`nextId
    ensures store.Valid() && Prolongs(old(store.run), store.run, p)
    ensures KeepsBag(old(store.messages), store.messages)
    ensures r.Raised? ==> store.Underway(p, step)
    ensures r.Returned? ==> store.At(p, step, if r.value == ACK then Acking else Nacking)
    ensures r.Returned? && byName == old(store.rows) && document == old(store.doc) ==>
      Ended(store, byName, document, step, executes, old(store.messages), old(store.nextId), r.value)
  {
    hide OnRun, IsEffect, Continues, Grows, BagMatches, ExecuteAlone, Flushed, Recomputed, Outlook, DoneSet,
        ReadySuccessors;
    var output := Execute(store, p, step, byName, document, executes);
    if output == None {
      r := OnFailure(store, p, step, byName, document);
    } else {
      r := Finish(store, p, step, byName, document, output.value);
    }
  }

  /** The rest of `handle`, from the mark RUNNING on. */
  method RunStep(store: Store, p: nat, step: StepName, loaded: Rows, document: DocumentStatus,
                 executes: StepInput -> Option<Output>)
    returns (r: Attempt<HandlerAction>)
    requires store.Valid() && store.At(p, step, Checked(loaded, document)) && step in loaded
    requires CanExecute(store, step, executes)
    modifies store`run, store`rows, store`doc, store`events, store`messages, store`nextId
    ensures store.Valid() && Prolongs(old(store.run), store.run, p)
    ensures KeepsBag(old(store.messages), store.messages)
    ensures r.Raised? ==> store.Underway(p, step)
    ensures r.Returned? ==> store.At(p, step, if r.value == ACK then Acking else Nacking)
    ensures r.Returned? && loaded == old(store.rows) && document == old(store.doc) ==>
      Did(store, RunAlone(store.config, loaded, document, step, executes), old(store.messages), old(store.nextId),
          r.value)
  {
    hide OnRun, IsEffect, Continues, Grows, BagMatches, ExecuteAlone, RunAlone, Flushed, Recomputed, Outlook, DoneSet,
        ReadySuccessors;
    ghost var alone := loaded == store.rows && document == store.doc;
    AloneIsWhatItDoes(store.config, loaded, document, step, executes, store.messages, store.nextId);
    var byName := loaded;
    byName :- MarkRunning(store, p, step, byName, document);
    assert alone ==> store.rows == byName;
    r := ExecuteAndFinish(store, p, step, byName, document, executes);
  }

  /** `handle`. It acts for message `p` alone, and, when nobody interferes, does what `HandledAlone` says. */
  method Handle(store: Store, p: nat, step: StepName, executes: StepInput -> Option<Output>)
    returns (r: Attempt<HandlerAction>)
    requires store.Valid() && store.At(p, step, Waiting) && CanExecute(store, step, executes)
    modifies store`run, store`rows, store`doc, store`events, store`messages, store`nextId
    ensures store.Valid() && Continues(old(store.run), store.run, p)
    ensures KeepsBag(old(store.messages), store.messages)
    ensures r.Raised? ==> store.Underway(p, step)
    ensures r.Returned? ==>
      && store.At(p, step, if r.value == ACK then Acking else Nacking)
      && Did(store, HandledAlone(store.config, old(store.rows), old(store.doc), step, executes), old(store.messages),
             old(store.nextId), r.value)
  {
    hide OnRun, IsEffect, Continues, Grows, BagMatches, RunAlone;
    ContinuesItself(store.run, p);
    var byName :- LoadSteps(store, p, step);
    if TerminalForRun(byName[step].status) {
      return Returned(ACK);
    }
    var document :- LoadDocument(store, p, step, byName);
    if document == Failed {
      return Returned(ACK);
    }
    r := RunStep(store, p, step, byName, document, executes);
  }
}

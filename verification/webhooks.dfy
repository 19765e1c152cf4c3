/** The partner's webhook. */
module Webhooks {
  import opened Model
  import opened Rules
  import opened Protocol
  import opened Stores
  import opened Transitions

  datatype WebhookOutcome = UnknownJob | DuplicateIgnored | Processed(status: DocumentStatus)

  // ---- what one webhook does when nobody else acts ----

  datatype Outcome = Outcome(rows: Rows, doc: DocumentStatus, response: WebhookOutcome)

  function SettledAlone(rows: Rows, doc: DocumentStatus, hook: Hook): Outcome
    requires ExternalCall in rows
  {
    var row := rows[ExternalCall];
    if row.externalJobId != Some(hook.job) then Outcome(rows, doc, UnknownJob)
    else if row.status in {Done, Error} then Outcome(rows, doc, DuplicateIgnored)
    else
      var settled := rows[ExternalCall := Settled(row, hook)];
      Outcome(settled, DeriveDocumentStatus(settled), Processed(DeriveDocumentStatus(settled)))
  }

  /** A webhook is processed exactly when its job id is known and its step is undecided. Then the row of
      external_call holds its outcome, no other row changes, and the document and the response are FAILED if the
      webhook or another step failed, READY otherwise. After that no further webhook changes anything, whatever
      it says. */
  lemma FirstWebhookDecides(rows: Rows, doc: DocumentStatus, hook: Hook, later: Hook)
    requires ExternalCall in rows
    ensures var first := SettledAlone(rows, doc, hook);
      && (first.response.Processed? <==>
            rows[ExternalCall].externalJobId == Some(hook.job) && rows[ExternalCall].status !in {Done, Error})
      && (!first.response.Processed? ==> first.rows == rows && first.doc == doc)
      && (first.response.Processed? ==>
            && first.rows.Keys == rows.Keys && SettledBy(rows[ExternalCall], hook, first.rows[ExternalCall])
            && (forall n :: n in rows && n != ExternalCall ==> first.rows[n] == rows[n])
            && first.doc == first.response.status
            && (first.doc == Failed <==>
                  !hook.completed || exists n :: n in rows && n != ExternalCall && rows[n].status == Error)
            && (first.doc == Failed || first.doc == Ready))
      && (first.response.Processed? ==>
            ExternalCall in first.rows &&
            SettledAlone(first.rows, first.doc, later) ==
            Outcome(first.rows, first.doc, if later.job == hook.job then DuplicateIgnored else UnknownJob))
  {}

  // ---- protocol actions ----

  lemma WebhookLeads(c: Config, s: State, hook: Hook)
    requires s.nextId !in s.procs
    ensures var e := VANISH.(spawn := Some(Webhook(hook, Recorded)), hook := Some(hook));
      && IsEffect(c, s, ReceiveWebhook(hook), s.nextId, e)
          && ActsAs(Apply(s, s.nextId, e), s.nextId, Webhook(hook, Recorded))
      && KeepsMessage(s.procs, s.nextId, e.self)
  {}

  lemma LookupJobLeads(c: Config, s: State, p: nat, hook: Hook)
    requires ActsAs(s, p, Webhook(hook, Recorded)) && ExternalCall in s.rows
    ensures var row, e := s.rows[ExternalCall], LookupJobEffect(s.rows[ExternalCall], s.procs[p]);
      && IsEffect(c, s, Action.LookupJob(p), p, e) && KeepsMessage(s.procs, p, e.self)
      && CommitsNothing(e) && e.spawn == None && e.doc == None && e.hook == None
      && (row.externalJobId == Some(hook.job) && row.status !in {Done, Error} ==>
            ActsAs(Apply(s, p, e), p, Webhook(hook, Deciding(row))))
  {}

  lemma SettleLeads(c: Config, s: State, p: nat, hook: Hook, row: Row)
    requires ActsAs(s, p, Webhook(hook, Deciding(row))) && ExternalCall in s.rows
    ensures var settled, e := Settled(row, hook), SettleCallbackEffect(s.rows[ExternalCall], s.procs[p]);
      && IsEffect(c, s, SettleCallback(p), p, e) && KeepsMessage(s.procs, p, e.self)
      && CommitsRow(e, ExternalCall, Flush(row, settled, s.rows[ExternalCall]),
                    Some(StepEvent(ExternalCall, settled.status)))
      && e.spawn == None && e.doc == None && e.hook == None
      && ActsAs(Apply(s, p, e), p, Webhook(hook, HookRecomputing(ReadStatuses)))
  {}

  // ---- `apply_partner_result` ----

  /** Record the webhook durably, before anything is decided. */
  method RecordWebhook(store: Store, hook: Hook) returns (r: Attempt<()>, ghost p: nat)
    requires store.Valid()
    modifies store`run, store`hooks, store`nextId
    ensures store.Valid() && Grows(old(store.run), store.run)
    ensures r.Raised? ==> store.run == old(store.run) && store.hooks == old(store.hooks)
    ensures r.Returned? ==> store.Acts(p, Webhook(hook, Recorded)) && store.hooks == old(store.hooks) + [hook]
  {
    hide OnRun, IsEffect, BagMatches;
    p := 0;
    if * {
      r := Raised;
      return;
    }
    store.NextIdIsFree();
    p := store.nextId;
    ghost var e := VANISH.(spawn := Some(Webhook(hook, Recorded)), hook := Some(hook));
    WebhookLeads(store.config, Last(store.run), hook);
    BagStays(store.messages, Last(store.run), p, e);
    store.Take(ReceiveWebhook(hook), p, e);
    store.hooks := store.hooks + [hook];
    store.nextId := store.nextId + 1;
    r := Returned(());
  }

  /** `get_step_by_job_id` */
  method GetStepByJobId(store: Store, ghost p: nat, hook: Hook) returns (r: Attempt<Option<Row>>)
    requires store.Valid() && store.Acts(p, Webhook(hook, Recorded)) && ExternalCall in store.rows
    modifies store`run
    ensures store.Valid() && Prolongs(old(store.run), store.run, p)
    ensures r.Raised? ==> store.run == old(store.run)
    ensures r.Returned? ==>
      && r.value == (if store.rows[ExternalCall].externalJobId == Some(hook.job) then Some(store.rows[ExternalCall])
        else None)
      && (r.value.Some? && r.value.value.status !in {Done, Error}
          ==> store.Acts(p, Webhook(hook, Deciding(r.value.value))))
  {
    hide OnRun, IsEffect, Continues, Grows, BagMatches;
    if * {
      return Raised;
    }
    ghost var e := LookupJobEffect(store.rows[ExternalCall], Last(store.run).procs[p]);
    LookupJobLeads(store.config, Last(store.run), p, hook);
    store.Observe(Action.LookupJob(p), p, e);
    if store.rows[ExternalCall].externalJobId == Some(hook.job) {
      r := Returned(Some(store.rows[ExternalCall]));
    } else {
      r := Returned(None);
    }
  }

  /** The commit of the partner's outcome. */
  method SettleStep(store: Store, ghost p: nat, hook: Hook, row: Row) returns (r: Attempt<()>)
    requires store.Valid() && store.Acts(p, Webhook(hook, Deciding(row))) && ExternalCall in store.rows
    modifies store`run, store`rows, store`events
    ensures store.Valid() && Prolongs(old(store.run), store.run, p)
    ensures r.Raised? ==> store.run == old(store.run)
    ensures r.Returned? ==>
      && store.Acts(p, Webhook(hook, HookRecomputing(ReadStatuses)))
      && store.rows == old(store.rows)[ExternalCall := Flush(row, Settled(row, hook), old(store.rows)[ExternalCall])]
      && (row == old(store.rows)[ExternalCall] ==> SettledBy(row, hook, store.rows[ExternalCall]))
  {
    hide OnRun, IsEffect, Continues, Grows, BagMatches;
    if * {
      return Raised;
    }
    ghost var e := SettleCallbackEffect(store.rows[ExternalCall], Last(store.run).procs[p]);
    SettleLeads(store.config, Last(store.run), p, hook, row);
    var step := row;
    if hook.completed {
      step := step.(status := Done, result := Some(Dict(hook.payload)));
    } else {
      step := step.(status := Error);
    }
    store.Commit(ExternalCall, Flush(row, step, store.rows[ExternalCall]), Some(StepEvent(ExternalCall, step.status)),
                 SettleCallback(p), p, e);
    r := Returned(());
  }

  method DecideWebhook(store: Store, ghost p: nat, hook: Hook) returns (r: Attempt<WebhookOutcome>)
    requires store.Valid() && store.Acts(p, Webhook(hook, Recorded)) && ExternalCall in store.rows
    modifies store`run, store`rows, store`doc, store`events
    ensures store.Valid() && Prolongs(old(store.run), store.run, p)
    ensures r.Returned? ==>
      Outcome(store.rows, store.doc, r.value) == SettledAlone(old(store.rows), old(store.doc), hook)
  {
    hide OnRun, IsEffect, Continues, Grows, BagMatches, DeriveDocumentStatus;
    var step :- GetStepByJobId(store, p, hook);
    if step == None {
      return Returned(UnknownJob);
    }
    if step.value.status in {Done, Error} {
      return Returned(DuplicateIgnored);
    }
    var _ :- SettleStep(store, p, hook, step.value);
    var status :- RecomputeDocumentStatus(store, p, Webhook(hook, HookRecomputing(ReadStatuses)), None);
    r := Returned(Processed(status));
  }

  /** `apply_partner_result`. The log grows by this webhook even when the rest raises, unless recording it
      raises: then nothing has happened. */
  method ApplyPartnerResult(store: Store, hook: Hook) returns (r: Attempt<WebhookOutcome>)
    requires store.Valid()
    modifies store`run, store`hooks, store`rows, store`doc, store`events, store`nextId
    ensures store.Valid() && Grows(old(store.run), store.run)
    ensures
      || store.hooks == old(store.hooks) + [hook]
      || (r.Raised? && store.run == old(store.run) && store.hooks == old(store.hooks)
          && store.rows == old(store.rows) && store.doc == old(store.doc))
    ensures ExternalCall in old(store.rows)
    ensures r.Returned? ==>
      && store.hooks == old(store.hooks) + [hook]
      && Outcome(store.rows, store.doc, r.value) == SettledAlone(old(store.rows), old(store.doc), hook)
  {
    hide OnRun, IsEffect, Continues, BagMatches, DeriveDocumentStatus;
    store.CallExists();
    var recorded, p := RecordWebhook(store, hook);
    if recorded.Raised? {
      return Raised;
    }
    ghost var run1 := store.run;
    ContinuesItself(store.run, p);
    r := DecideWebhook(store, p, hook);
    GrowsBy(run1, store.run, p);
    GrowsFurther(old(store.run), run1, store.run);
  }
}

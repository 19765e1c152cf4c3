/** The guarantees of a run without overlapping writers, whatever crashes and is redelivered. */
module Outcomes {
  import opened Model
  import opened Dag
  import opened Rules
  import opened Protocol
  import opened Claims
  import opened NoOverlaps
  import opened Status

  ghost predicate Settling(c: Config, s: State) {
    Known(c, s) && StatusInv(s) && JobsAccounted(s)
  }

  lemma NextKeepsSettling(c: Config, s: State, a: Action, s': State)
    requires ValidConfig(c) && Settling(c, s) && NoOverlap(s) && Next(c, s, a, s')
    ensures Settling(c, s') && RowsAdvance(s.rows, s'.rows)
    ensures s.doc != Processing ==> s'.doc == s.doc
  {
    NextKeepsInv(c, s, a, s');
    NextKeepsFresh(c, s, a, s');
    NextKeepsSettled(c, s, a, s');
    NextKeepsStatus(c, s, a, s');
    NextKeepsJobsAccounted(c, s, a, s');
  }

  lemma InitialSettling(c: Config)
    requires ValidConfig(c)
    ensures Settling(c, Initial(c))
  {
    InitialInv(c);
    InitialRowsSettled(c);
    InitialStatus(c);
  }

  lemma InitialRowsSettled(c: Config)
    requires ValidConfig(c)
    ensures Fresh(Initial(c)) && RowsSettled(c, Initial(c))
  {}

  lemma InitialStatus(c: Config)
    ensures StatusInv(Initial(c)) && JobsAccounted(Initial(c))
  {
    assert !JobHeld(Initial(c));
  }

  lemma StepKeepsSettling(c: Config, r: Run, i: nat)
    requires ValidConfig(c) && IsRun(c, r) && NoOverlapEver(r) && i < |r.actions| && Settling(c, r.states[i])
    ensures Settling(c, r.states[i+1]) && RowsAdvance(r.states[i].rows, r.states[i+1].rows)
    ensures r.states[i].doc != Processing ==> r.states[i+1].doc == r.states[i].doc
  {
    StepOf(c, r, i);
    NoOverlapAt(r, i);
    NextKeepsSettling(c, r.states[i], r.actions[i], r.states[i+1]);
  }

  lemma RunSettling(c: Config, r: Run, i: nat)
    requires ValidConfig(c) && IsRun(c, r) && NoOverlapEver(r) && i < |r.states|
    ensures Settling(c, r.states[i])
  {
    var P := (s: State) => Settling(c, s);
    InitialSettling(c);
    forall k {:trigger Keeps(r, P, k)} | 0 <= k < |r.states| - 1 ensures Keeps(r, P, k) {
      if P(r.states[k]) {
        StepKeepsSettling(c, r, k);
      }
    }
    Induct(r, P, 0, i);
  }

  lemma RowAdvancesFurther(a: Row, b: Row, d: Row)
    requires RowAdvances(a, b) && RowAdvances(b, d)
    ensures RowAdvances(a, d)
  {}

  /** Along a run rows only advance: DONE and ERROR are final, attempts never decrease, job ids stay. */
  lemma RowsOnlyAdvance(c: Config, r: Run, i: nat, j: nat, n: StepName)
    requires ValidConfig(c) && IsRun(c, r) && NoOverlapEver(r) && i <= j < |r.states| && n in r.states[i].rows
    ensures n in r.states[j].rows && RowAdvances(r.states[i].rows[n], r.states[j].rows[n])
  {
    var start := r.states[i].rows[n];
    var P := (s: State) => n in s.rows && RowAdvances(start, s.rows[n]);
    forall k {:trigger Keeps(r, P, k)} | i <= k < |r.states| - 1 ensures Keeps(r, P, k) {
      if P(r.states[k]) {
        RunSettling(c, r, k);
        StepKeepsSettling(c, r, k);
        RowAdvancesFurther(start, r.states[k].rows[n], r.states[k+1].rows[n]);
      }
    }
    Induct(r, P, i, j);
  }

  /** The stored document status moves at most once, from PROCESSING to READY or to FAILED. */
  lemma DocumentStatusMovesOnce(c: Config, r: Run, i: nat, j: nat)
    requires ValidConfig(c) && IsRun(c, r) && NoOverlapEver(r) && i <= j < |r.states|
    ensures r.states[j].doc != r.states[i].doc ==> r.states[i].doc == Processing
    ensures r.states[0].doc == Processing
  {
    var start := r.states[i].doc;
    if start != Processing {
      var P := (s: State) => s.doc == start;
      forall k {:trigger Keeps(r, P, k)} | i <= k < |r.states| - 1 ensures Keeps(r, P, k) {
        RunSettling(c, r, k);
        StepKeepsSettling(c, r, k);
      }
      Induct(r, P, i, j);
    }
  }

  /** The stored status is never ahead of the steps. */
  lemma StatusNeverAhead(c: Config, r: Run, i: nat)
    requires ValidConfig(c) && IsRun(c, r) && NoOverlapEver(r) && i < |r.states|
    ensures r.states[i].doc == Ready ==> CallDone(r.states[i].rows) && !AnyError(r.states[i].rows)
    ensures r.states[i].doc == Failed ==> AnyError(r.states[i].rows) && !CallDone(r.states[i].rows)
  {
    RunSettling(c, r, i);
    if CallDone(r.states[i].rows) {
      CallDoneMeansAllDone(c, r.states[i]);
    }
  }

  /** A READY document has every step DONE with its result, the job id, a completed webhook for that
      job id in the log, and no missing field in its aggregate. */
  lemma ReadyGate(c: Config, r: Run, i: nat)
    requires ValidConfig(c) && IsRun(c, r) && NoOverlapEver(r) && i < |r.states|
    requires r.states[i].doc == Ready
    ensures var s := r.states[i];
      && (forall n :: n in c.graph.nodes ==> n in s.rows && s.rows[n].status == Done && s.rows[n].result.Some?)
      && ExternalCall in s.rows && s.rows[ExternalCall].externalJobId.Some?
      && Confirmed(s.hooks, s.rows[ExternalCall])
    ensures var s := r.states[i];
      {Ocr, Metadata, Chunking, ExternalCall} <= s.rows.Keys ==>
        var d := Extracted(s.rows);
        d.ocrText.Some? && d.metadata.Some? && d.chunks.Some? && d.externalJobId.Some? && d.partnerResult.Some?
  {
    RunSettling(c, r, i);
    ReadyRows(c, r.states[i]);
  }

  lemma ReadyRows(c: Config, s: State)
    requires ValidConfig(c) && Known(c, s) && StatusInv(s) && s.doc == Ready
    ensures forall n :: n in c.graph.nodes ==> n in s.rows && s.rows[n].status == Done && HasResult(s.rows, n)
    ensures ExternalCall in s.rows && s.rows[ExternalCall].externalJobId.Some?
    ensures Confirmed(s.hooks, s.rows[ExternalCall])
    ensures {Ocr, Metadata, Chunking} <= s.rows.Keys ==>
      HasResult(s.rows, Ocr) && HasResult(s.rows, Metadata) && HasResult(s.rows, Chunking)
  {
    CallDoneMeansAllDone(c, s);
    forall n | n in s.rows ensures HasResult(s.rows, n) {
      assert RowOk(c.graph, s.rows, s.hist.everDone, n);
    }
    assert RowSettled(c, s.hist, s.hooks, ExternalCall, s.rows[ExternalCall]);
  }

  /** external_call ran to a job id at most once, plus once for each crash between call and commit. */
  lemma PartnerCallsBounded(c: Config, r: Run, i: nat)
    requires ValidConfig(c) && IsRun(c, r) && NoOverlapEver(r) && i < |r.states|
    ensures |r.states[i].hist.issued| <= 1 + r.states[i].hist.notes[LostCall]
  {
    RunSettling(c, r, i);
  }

  /** A row that is not ERROR has attempts left. */
  lemma AttemptsStayBelowTheLimit(c: Config, r: Run, i: nat, n: StepName)
    requires ValidConfig(c) && IsRun(c, r) && NoOverlapEver(r) && i < |r.states| && n in r.states[i].rows
    ensures r.states[i].rows[n].status != Error ==> r.states[i].rows[n].attempts < c.maxAttempts
  {
    RunSettling(c, r, i);
    var s := r.states[i];
    assert RowSettled(c, s.hist, s.hooks, n, s.rows[n]);
  }

  /** So every row the reaper selects has attempts left: its exhausted branch is never taken. */
  lemma ReaperNeverFindsExhausted(c: Config, r: Run, i: nat, p: nat)
    requires ValidConfig(c) && IsRun(c, r) && NoOverlapEver(r) && i < |r.states|
    requires p in r.states[i].procs && r.states[i].procs[p].Reaper? && r.states[i].procs[p].selected != []
    ensures r.states[i].procs[p].selected[0].row.attempts < c.maxAttempts
  {
    RunSettling(c, r, i);
    ReapedHasAttempts(c, r.states[i], p);
  }

  lemma ReapedHasAttempts(c: Config, s: State, p: nat)
    requires Known(c, s) && p in s.procs && s.procs[p].Reaper? && s.procs[p].selected != []
    ensures s.procs[p].selected[0].row.attempts < c.maxAttempts
  {
    var x := s.procs[p];
    assert x.selected[0] in x.selected;
    assert ProcFresh(s.rows, x) && ProcOk(c.graph, s.rows, s.hist.everDone, x);
    assert RowSettled(c, s.hist, s.hooks, x.selected[0].step, s.rows[x.selected[0].step]);
  }

  // ---- first outcome wins ----

  ghost predicate CallWaits(s: State) {
    ExternalCall in s.rows && s.rows[ExternalCall].status == AwaitingCallback
  }

  /** What an action makes of a waiting external_call: a completed webhook for its job stores DONE and its own
      payload, a failed one or a timeout stores ERROR, and nothing else of the row changes. */
  ghost predicate DecidedBy(s: State, a: Action, s': State) {
    && ExternalCall in s.rows && ExternalCall in s'.rows
    && var before, after := s.rows[ExternalCall], s'.rows[ExternalCall];
    && (|| (a.SettleCallback? && a.p in s.procs && s.procs[a.p].Webhook?
            && before.externalJobId == Some(s.procs[a.p].hook.job) && SettledBy(before, s.procs[a.p].hook, after))
        || (a.ReapNext? && a.p in s.procs && s.procs[a.p].Reaper? && s.procs[a.p].phase == Callbacks
            && after == Row(Error, before.attempts, before.result, before.externalJobId)))
  }

  lemma WaitingIsDecided(c: Config, s: State, a: Action, s': State)
    requires Known(c, s) && Next(c, s, a, s') && CallWaits(s) && !CallWaits(s')
    ensures DecidedBy(s, a, s')
  {
    if a.ReapNext? {
      assert ProcFresh(s.rows, s.procs[a.p]) && ProcOk(c.graph, s.rows, s.hist.everDone, s.procs[a.p]);
      assert s.procs[a.p].selected[0] in s.procs[a.p].selected;
    } else {
      CallIsSettled(c, s, a, s');
    }
  }

  lemma CallIsSettled(c: Config, s: State, a: Action, s': State)
    requires Known(c, s) && Next(c, s, a, s') && CallWaits(s) && !CallWaits(s') && !a.ReapNext?
    ensures DecidedBy(s, a, s')
  {
    if a.SettleCallback? {
      WebhookSettlesCall(c, s, a, s');
    } else if HandlerCommits(a) {
      HandlersLeaveCallAlone(c, s, a);
    } else if a.ClaimNext? {
      ClaimsLeaveCallAlone(c, s, a);
    } else {
      OthersWriteNothing(c, s, a);
    }
  }

  lemma WebhookSettlesCall(c: Config, s: State, a: Action, s': State)
    requires Known(c, s) && Next(c, s, a, s') && a.SettleCallback?
    ensures DecidedBy(s, a, s')
  {
    assert ProcFresh(s.rows, s.procs[a.p]) && ProcOk(c.graph, s.rows, s.hist.everDone, s.procs[a.p]);
    assert ProcSettled(s.hist, s.hooks, s.procs[a.p]);
  }

  lemma HandlersLeaveCallAlone(c: Config, s: State, a: Action)
    requires Known(c, s) && Enabled(c, s, a) && HandlerCommits(a) && CallWaits(s)
    ensures var w := Act(c, s, a).write; w.WriteRow? ==> w.step != ExternalCall
  {
    assert ProcFresh(s.rows, s.procs[a.p]) && ProcOk(c.graph, s.rows, s.hist.everDone, s.procs[a.p]);
  }

  lemma ClaimsLeaveCallAlone(c: Config, s: State, a: Action)
    requires Enabled(c, s, a) && a.ClaimNext? && CallWaits(s)
    ensures var w := Act(c, s, a).write; w.WriteRow? ==> w.step != ExternalCall
  {}

  lemma StepDecides(c: Config, r: Run, i: nat, k: nat)
    requires IsRun(c, r) && k == i + 1 && k < |r.states| && Known(c, r.states[i])
    requires CallWaits(r.states[i]) && !CallWaits(r.states[k])
    ensures DecidedBy(r.states[i], r.actions[i], r.states[k]) && CallDecided(r.states[k])
  {
    StepOf(c, r, i);
    WaitingIsDecided(c, r.states[i], r.actions[i], r.states[k]);
  }

  /** external_call leaves AWAITING_CALLBACK at most once in a run. The webhook or reaper that takes it
      out decides DONE or ERROR, a completed webhook leaves its own payload, and the row stays exactly so. */
  lemma FirstOutcomeWins(c: Config, r: Run, i: nat, k: nat, j: nat)
    requires ValidConfig(c) && IsRun(c, r) && NoOverlapEver(r) && k == i + 1 && k <= j < |r.states|
    requires CallWaits(r.states[i]) && !CallWaits(r.states[k])
    ensures DecidedBy(r.states[i], r.actions[i], r.states[k])
    ensures CallDecided(r.states[k]) && CallDecided(r.states[j])
    ensures r.states[j].rows[ExternalCall] == r.states[k].rows[ExternalCall]
  {
    RunSettling(c, r, i);
    StepDecides(c, r, i, k);
    RowsOnlyAdvance(c, r, k, j, ExternalCall);
  }

  ghost predicate CallDecided(s: State) {
    ExternalCall in s.rows && s.rows[ExternalCall].status in {Done, Error}
  }

  /** Once external_call is decided, every webhook for it is a duplicate: its lookup changes neither rows
      nor document, and no webhook is left that could still settle it. */
  lemma LateWebhooksChangeNothing(c: Config, r: Run, i: nat, k: nat)
    requires ValidConfig(c) && IsRun(c, r) && NoOverlapEver(r) && i <= k < |r.actions| && CallDecided(r.states[i])
    ensures !r.actions[k].SettleCallback?
    ensures r.actions[k].LookupJob? ==>
      var s, s' := r.states[k], r.states[k+1];
      s'.rows == s.rows && s'.doc == s.doc && s'.events == s.events && r.actions[k].p !in s'.procs
  {
    RowsOnlyAdvance(c, r, i, k, ExternalCall);
    RunSettling(c, r, k);
    StepOf(c, r, k);
    LateWebhook(c, r.states[k], r.actions[k], r.states[k+1]);
  }

  lemma LateWebhook(c: Config, s: State, a: Action, s': State)
    requires Known(c, s) && Next(c, s, a, s') && CallDecided(s)
    ensures !a.SettleCallback?
    ensures a.LookupJob? ==> s'.rows == s.rows && s'.doc == s.doc && s'.events == s.events && a.p !in s'.procs
  {
    if a.SettleCallback? {
      SettleCallbackSettled(c, s, a);
    }
  }

  function Received(actions: seq<Action>): seq<Hook> {
    if actions == [] then []
    else
      var last := actions[|actions|-1];
      Received(actions[..|actions|-1]) + (if last.ReceiveWebhook? then [last.hook] else [])
  }

  lemma HooksStep(c: Config, s: State, a: Action, s': State)
    requires Next(c, s, a, s')
    ensures s'.hooks == s.hooks + (if a.ReceiveWebhook? then [a.hook] else [])
  {}

  /** The webhook log is the webhooks received, in order, once each: replays and unknown jobs included. */
  lemma {:induction false} WebhookLogIsComplete(c: Config, r: Run, i: nat)
    requires IsRun(c, r) && i < |r.states|
    ensures r.states[i].hooks == Received(r.actions[..i])
  {
    if i > 0 {
      WebhookLogIsComplete(c, r, i - 1);
      assert r.actions[..i][..i-1] == r.actions[..i-1];
      HooksAt(c, r, i - 1);
    }
  }

  lemma HooksAt(c: Config, r: Run, i: nat)
    requires IsRun(c, r) && i < |r.actions|
    ensures r.states[i+1].hooks ==
      r.states[i].hooks + (if r.actions[i].ReceiveWebhook? then [r.actions[i].hook] else [])
  {
    StepOf(c, r, i);
    HooksStep(c, r.states[i], r.actions[i], r.states[i+1]);
  }
}

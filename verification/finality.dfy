/** When DONE and ERROR are final. The code commits from copies it loaded earlier, so a step that has ended can
    be taken back; but only by a process that loaded its row before, and exactly then. Nothing here assumes
    that writers of one step do not overlap. */
module Finality {
  import opened Model
  import opened Dag
  import opened Rules
  import opened Protocol
  import opened Claims
  import opened Stores
  import opened Transitions
  import opened Handlers
  import opened Webhooks
  import opened Completion

  predicate Ended(status: StepStatus) {
    status in {Done, Error}
  }

  /** `x` loaded the row of step `n` before it ended with `status`, and has a commit ahead that may write
      another status over it. */
  predicate Undoes(c: Config, x: Proc, n: StepName, status: StepStatus) {
    match x
    case Delivery(m, _, stage) => m == n && Overwrites(c, n, stage, status)
    case Webhook(hook, stage) => n == ExternalCall && stage.Deciding? && hook.completed != (status == Done)
    case Reaper(phase, selected, _) => status == Done && exists sel :: sel in selected && Fails(c, phase, sel, n)
    case Creator(_) => false
  }

  predicate Overwrites(c: Config, n: StepName, stage: Stage, status: StepStatus) {
    match stage
    case Loaded(_) => true
    case Checked(_, _) => true
    case Executing(_, _) => true
    case Saving(_, _, output) => output.JobHandle? || status == Error
    case Failing(rows, _) => status == Done || (n in rows && rows[n].attempts + 1 < c.maxAttempts)
    case _ => false
  }

  /** The reaper is going to fail the row of `n` that it selected. */
  predicate Fails(c: Config, phase: Phase, sel: Selected, n: StepName) {
    sel.step == n && (phase == Callbacks || sel.row.attempts >= c.maxAttempts)
  }

  ghost predicate HasStatus(s: State, n: StepName, status: StepStatus) {
    n in s.rows && s.rows[n].status == status
  }

  ghost predicate Undoable(c: Config, s: State, n: StepName, status: StepStatus) {
    exists p :: p in s.procs && Undoes(c, s.procs[p], n, status)
  }

  // ---- without such a process the status stays ----

  ghost predicate Sealed(c: Config, s: State, n: StepName, status: StepStatus) {
    Ended(status) && HasStatus(s, n, status) && !Undoable(c, s, n, status)
  }

  ghost predicate SealedEffect(c: Config, e: Effect, n: StepName, status: StepStatus) {
    && (e.write.WriteRow? && e.write.step == n ==> e.write.row.status == status)
    && (e.self.Some? ==> !Undoes(c, e.self.value, n, status))
    && (e.spawn.Some? ==> !Undoes(c, e.spawn.value, n, status))
  }

  lemma ApplyKeepsSealed(c: Config, s: State, p: nat, e: Effect, n: StepName, status: StepStatus)
    requires Sealed(c, s, n, status) && SealedEffect(c, e, n, status)
    ensures Sealed(c, Apply(s, p, e), n, status)
  {
    hide Undoes;
  }

  lemma ReaderSeals(c: Config, s: State, a: Action, n: StepName, status: StepStatus)
    requires Sealed(c, s, n, status) && Enabled(c, s, a)
    requires a.Deliver? || a.LoadDocument? || a.ExecuteOk? || a.ExecuteFail? || a.Nack? || a.ReadReady?
          || a.PublishClaimed? || a.EndClaims? || a.Redeliver? || a.Crash?
    ensures SealedEffect(c, Act(c, s, a), n, status)
  {
    assert !Undoes(c, s.procs[a.p], n, status);
  }

  lemma WriterSeals(c: Config, s: State, a: Action, n: StepName, status: StepStatus)
    requires Sealed(c, s, n, status) && Enabled(c, s, a)
    requires a.MarkRunning? || a.Save? || a.FailAttempt? || a.ClaimNext? || a.SettleCallback?
    ensures SealedEffect(c, Act(c, s, a), n, status)
  {
    assert !Undoes(c, s.procs[a.p], n, status);
  }

  lemma RecomputeSeals(c: Config, s: State, a: Action, n: StepName, status: StepStatus)
    requires Sealed(c, s, n, status) && Enabled(c, s, a) && a.RecomputeStep?
    ensures SealedEffect(c, Act(c, s, a), n, status)
  {
    hide DeriveDocumentStatus;
    assert !Undoes(c, s.procs[a.p], n, status);
  }

  lemma ReapSeals(c: Config, s: State, a: Action, n: StepName, status: StepStatus)
    requires Sealed(c, s, n, status) && Enabled(c, s, a) && a.ReapNext?
    ensures SealedEffect(c, Act(c, s, a), n, status)
  {
    var x := s.procs[a.p];
    assert !Undoes(c, x, n, status);
    assert x.selected[0] in x.selected;
    forall sel | sel in x.selected[1..] ensures sel in x.selected {}
  }

  lemma ScanSeals(c: Config, s: State, a: Action, n: StepName, status: StepStatus)
    requires Sealed(c, s, n, status) && Enabled(c, s, a) && (a.ScanInFlight? || a.ScanCallbacks?)
    ensures SealedEffect(c, Act(c, s, a), n, status)
  {
    SelectionMembers(s.rows, a.picked);
  }

  lemma StartSeals(c: Config, s: State, a: Action, n: StepName, status: StepStatus)
    requires Sealed(c, s, n, status) && Enabled(c, s, a) && (a.LookupJob? || a.ReceiveWebhook? || a.PublishEntry?)
    ensures SealedEffect(c, Act(c, s, a), n, status)
  {}

  lemma EndSeals(c: Config, s: State, a: Action, n: StepName, status: StepStatus)
    requires Enabled(c, s, a) && Ends(a)
    ensures SealedEffect(c, Act(c, s, a), n, status)
  {
    hide Enabled, Act;
    EndersVanish(c, s, a);
  }

  lemma ActionSeals(c: Config, s: State, a: Action, n: StepName, status: StepStatus)
    requires Sealed(c, s, n, status) && Enabled(c, s, a)
    ensures SealedEffect(c, Act(c, s, a), n, status)
  {
    hide Sealed, Enabled, Act, SealedEffect;
    if Ends(a) {
      EndSeals(c, s, a, n, status);
    } else if HandlerCommits(a) || a.ClaimNext? || a.SettleCallback? {
      WriterSeals(c, s, a, n, status);
    } else if a.RecomputeStep? {
      RecomputeSeals(c, s, a, n, status);
    } else if a.ReapNext? {
      ReapSeals(c, s, a, n, status);
    } else if a.ScanInFlight? || a.ScanCallbacks? {
      ScanSeals(c, s, a, n, status);
    } else if a.LookupJob? || a.ReceiveWebhook? || a.PublishEntry? {
      StartSeals(c, s, a, n, status);
    } else {
      ReaderSeals(c, s, a, n, status);
    }
  }

  lemma NextKeepsSealed(c: Config, s: State, a: Action, s': State, n: StepName, status: StepStatus)
    requires Sealed(c, s, n, status) && Next(c, s, a, s')
    ensures Sealed(c, s', n, status)
  {
    ActionSeals(c, s, a, n, status);
    hide Sealed, Enabled, Act, SealedEffect;
    ApplyKeepsSealed(c, s, Subject(s, a), Act(c, s, a), n, status);
  }

  /** In any run, overlaps included: a step that is DONE or ERROR while no process undoes it stays so. */
  lemma SealedStays(c: Config, r: Run, i: nat, j: nat, n: StepName, status: StepStatus)
    requires IsRun(c, r) && i <= j < |r.states| && Sealed(c, r.states[i], n, status)
    ensures Sealed(c, r.states[j], n, status)
  {
    var P := (s: State) => Sealed(c, s, n, status);
    forall k {:trigger Keeps(r, P, k)} | i <= k < |r.states| - 1 ensures Keeps(r, P, k) {
      if P(r.states[k]) {
        StepOf(c, r, k);
        NextKeepsSealed(c, r.states[k], r.actions[k], r.states[k+1], n, status);
      }
    }
    Induct(r, P, i, j);
  }

  // ---- with such a process it may go ----

  /** Some continuation of `r` ends with this status of step `n`. */
  ghost predicate MayBecome(c: Config, r: Run, n: StepName, status: StepStatus) {
    exists r' :: OnRun(c, r') && Longer(r, r') && HasStatus(Last(r'), n, status)
  }

  /** Some continuation of `r` ends with another status. */
  ghost predicate MayLeave(c: Config, r: Run, n: StepName, status: StepStatus) {
    exists other :: other != status && MayBecome(c, r, n, other)
  }

  lemma MayBecomeBefore(c: Config, r: Run, r': Run, n: StepName, status: StepStatus)
    requires Longer(r, r') && MayBecome(c, r', n, status)
    ensures MayBecome(c, r, n, status)
  {
    hide OnRun;
    var r'' :| OnRun(c, r'') && Longer(r', r'') && HasStatus(Last(r''), n, status);
    LongerFurther(r, r', r'');
  }

  lemma MayLeaveBefore(c: Config, r: Run, r': Run, n: StepName, status: StepStatus)
    requires Longer(r, r') && MayLeave(c, r', n, status)
    ensures MayLeave(c, r, n, status)
  {
    hide MayBecome, Longer;
    var other :| other != status && MayBecome(c, r', n, other);
    MayBecomeBefore(c, r, r', n, other);
  }

  /** It saw its step in flight, and then marked it RUNNING. */
  lemma CopyOf(c: Config, r: Run, p: nat, n: StepName, stage: Stage)
    requires r.states != [] && OnRun(c, r) && StandsAt(Last(r), p, n, stage) && CopyIn(stage).Some?
    ensures n in CopyIn(stage).value
    ensures stage.Loaded? || stage.Checked? || CopyIn(stage).value[n].status == Running
  {
    RunInv(c, r, |r.states| - 1);
    assert ProcOk(c.graph, Last(r).rows, Last(r).hist.everDone, Last(r).procs[p]);
  }

  /** A handler that counts a failed attempt writes over whatever is stored. */
  lemma FailingOverwrites(c: Config, r: Run, p: nat, n: StepName, byName: Rows, seen: DocumentStatus)
    requires r.states != [] && OnRun(c, r) && StandsAt(Last(r), p, n, Failing(byName, seen))
    ensures n in byName && MayBecome(c, r, n, FailedOnce(byName[n], c.maxAttempts).status)
  {
    CopyOf(c, r, p, n, Failing(byName, seen));
    hide OnRun, Longer, IsEffect;
    FailAttemptLeads(c, Last(r), p, n, byName, seen);
    var e := FailAttemptEffect(Last(r).rows[n], Last(r).procs[p], c.maxAttempts);
    var r' := TakeStep(c, r, FailAttempt(p), p, e);
    assert HasStatus(Last(r'), n, FailedOnce(byName[n], c.maxAttempts).status);
  }

  lemma ExecutingMayFail(c: Config, r: Run, p: nat, n: StepName, byName: Rows, seen: DocumentStatus)
    requires r.states != [] && OnRun(c, r) && StandsAt(Last(r), p, n, Executing(byName, seen))
    ensures n in byName && MayBecome(c, r, n, FailedOnce(byName[n], c.maxAttempts).status)
  {
    hide OnRun, Longer, IsEffect, MayBecome;
    ExecuteFailLeads(c, Last(r), p, n, byName, seen);
    var e := Become(Last(r).procs[p].(stage := Failing(byName, seen)));
    var r1 := TakeStep(c, r, ExecuteFail(p), p, e);
    FailingOverwrites(c, r1, p, n, byName, seen);
    MayBecomeBefore(c, r, r1, n, FailedOnce(byName[n], c.maxAttempts).status);
  }

  function AfterSave(output: Output): StepStatus {
    if output.JobHandle? then AwaitingCallback else Done
  }

  lemma SavingOverwrites(c: Config, r: Run, p: nat, n: StepName, byName: Rows, seen: DocumentStatus, output: Output)
    requires r.states != [] && OnRun(c, r) && StandsAt(Last(r), p, n, Saving(byName, seen, output))
    ensures MayBecome(c, r, n, AfterSave(output))
  {
    CopyOf(c, r, p, n, Saving(byName, seen, output));
    hide OnRun, Longer, IsEffect;
    SaveLeads(c, Last(r), p, n, byName, seen, output);
    var e := SaveEffect(Last(r).rows[n], Last(r).procs[p]);
    var r' := TakeStep(c, r, Save(p), p, e);
    assert HasStatus(Last(r'), n, AfterSave(output));
  }

  lemma ExecutingMaySucceed(c: Config, r: Run, p: nat, n: StepName, byName: Rows, seen: DocumentStatus)
    requires r.states != [] && OnRun(c, r) && StandsAt(Last(r), p, n, Executing(byName, seen))
    requires InputsAreAncestors(c.graph)
    ensures MayLeave(c, r, n, Error)
  {
    InputsAreThere(c, r, |r.states| - 1, p);
    hide OnRun, Longer, IsEffect, InputsAreAncestors, TransformInput, SomeOutput, MayBecome;
    var output := SomeOutput(n, Last(r).hist.issued);
    ExecuteOkLeads(c, Last(r), p, n, byName, seen, output);
    var r1 := TakeStep(c, r, ExecuteOk(p, output), p, ExecuteOkEffect(Last(r).procs[p], output));
    SavingOverwrites(c, r1, p, n, byName, seen, output);
    MayBecomeBefore(c, r, r1, n, AfterSave(output));
  }

  lemma ExecutingUndoes(c: Config, r: Run, p: nat, n: StepName, byName: Rows, seen: DocumentStatus, status: StepStatus)
    requires r.states != [] && OnRun(c, r) && StandsAt(Last(r), p, n, Executing(byName, seen))
    requires status == Done || (status == Error && InputsAreAncestors(c.graph))
    ensures MayLeave(c, r, n, status)
  {
    hide OnRun, InputsAreAncestors, MayBecome;
    if status == Done {
      ExecutingMayFail(c, r, p, n, byName, seen);
    } else {
      ExecutingMaySucceed(c, r, p, n, byName, seen);
    }
  }

  lemma CheckedUndoes(c: Config, r: Run, p: nat, n: StepName, byName: Rows, seen: DocumentStatus, status: StepStatus)
    requires r.states != [] && OnRun(c, r) && StandsAt(Last(r), p, n, Checked(byName, seen))
    requires status == Done || (status == Error && InputsAreAncestors(c.graph))
    ensures MayLeave(c, r, n, status)
  {
    CopyOf(c, r, p, n, Checked(byName, seen));
    hide OnRun, Longer, IsEffect, InputsAreAncestors, MayLeave;
    MarkRunningLeads(c, Last(r), p, n, byName, seen);
    var running := byName[n := byName[n].(status := Running)];
    var r1 := TakeStep(c, r, Action.MarkRunning(p), p, MarkRunningEffect(Last(r).rows[n], Last(r).procs[p]));
    ExecutingUndoes(c, r1, p, n, running, seen, status);
    MayLeaveBefore(c, r, r1, n, status);
  }

  lemma LoadedUndoes(c: Config, r: Run, p: nat, n: StepName, byName: Rows, status: StepStatus)
    requires r.states != [] && OnRun(c, r) && StandsAt(Last(r), p, n, Loaded(byName)) && Last(r).doc != Failed
    requires status == Done || (status == Error && InputsAreAncestors(c.graph))
    ensures MayLeave(c, r, n, status)
  {
    CopyOf(c, r, p, n, Loaded(byName));
    hide OnRun, Longer, IsEffect, InputsAreAncestors, MayLeave;
    LoadDocumentLeads(c, Last(r), p, n, byName);
    var seen := Last(r).doc;
    var r1 := TakeStep(c, r, Action.LoadDocument(p), p, LoadDocumentEffect(seen, Last(r).procs[p]));
    CheckedUndoes(c, r1, p, n, byName, seen, status);
    MayLeaveBefore(c, r, r1, n, status);
  }

  lemma DecidingUndoes(c: Config, r: Run, p: nat, hook: Hook, row: Row)
    requires r.states != [] && OnRun(c, r) && ActsAs(Last(r), p, Webhook(hook, Deciding(row)))
    ensures MayBecome(c, r, ExternalCall, if hook.completed then Done else Error)
  {
    RunInv(c, r, |r.states| - 1);
    assert ProcOk(c.graph, Last(r).rows, Last(r).hist.everDone, Last(r).procs[p]);
    hide OnRun, Longer, IsEffect;
    SettleLeads(c, Last(r), p, hook, row);
    var e := SettleCallbackEffect(Last(r).rows[ExternalCall], Last(r).procs[p]);
    var r' := TakeStep(c, r, SettleCallback(p), p, e);
    assert HasStatus(Last(r'), ExternalCall, if hook.completed then Done else Error);
  }

  /** Some continuation of `r` ends with the process at `x`. */
  ghost predicate MayAct(c: Config, r: Run, p: nat, x: Proc) {
    exists r' :: OnRun(c, r') && Longer(r, r') && ActsAs(Last(r'), p, x)
  }

  lemma MayActBefore(c: Config, r: Run, r': Run, p: nat, x: Proc)
    requires Longer(r, r') && MayAct(c, r', p, x)
    ensures MayAct(c, r, p, x)
  {
    hide OnRun;
    var r'' :| OnRun(c, r'') && Longer(r', r'') && ActsAs(Last(r''), p, x);
    LongerFurther(r, r', r'');
  }

  /** A reaper finishes the recomputation it is in. */
  lemma FinishRecompute(c: Config, r: Run, p: nat, phase: Phase, selected: seq<Selected>, at: Recompute)
    requires r.states != [] && OnRun(c, r) && ActsAs(Last(r), p, Reaper(phase, selected, Some(at)))
    ensures MayAct(c, r, p, Reaper(phase, selected, None))
    decreases match at case ReadStatuses => 2 case ReadDocument(_) => 1 case WriteDocument(_, _) => 0
  {
    hide OnRun, Longer, IsEffect, DeriveDocumentStatus;
    var x, s := Reaper(phase, selected, Some(at)), Last(r);
    match at
    case ReadStatuses =>
      ReadStatusesLeads(c, s, p, x);
      var r1 := TakeStep(c, r, RecomputeStep(p), p, RecomputeEffect(s.rows, s.doc, x));
      FinishRecompute(c, r1, p, phase, selected, ReadDocument(DeriveDocumentStatus(s.rows)));
      MayActBefore(c, r, r1, p, Reaper(phase, selected, None));
    case ReadDocument(derived) =>
      ReadDocumentLeads(c, s, p, x, derived);
      var r1 := TakeStep(c, r, RecomputeStep(p), p, RecomputeEffect(s.rows, s.doc, x));
      FinishRecompute(c, r1, p, phase, selected, WriteDocument(derived, s.doc));
      MayActBefore(c, r, r1, p, Reaper(phase, selected, None));
    case WriteDocument(derived, stored) =>
      WriteDocumentLeads(c, s, p, x, derived, stored);
      var r1 := TakeStep(c, r, RecomputeStep(p), p, RecomputeEffect(s.rows, s.doc, x));
      assert ActsAs(Last(r1), p, Reaper(phase, selected, None));
  }

  lemma ReapLeads(c: Config, s: State, p: nat, phase: Phase, selected: seq<Selected>)
    requires ActsAs(s, p, Reaper(phase, selected, None)) && selected != [] && selected[0].step in s.rows
    ensures var e, sel := ReapNextEffect(s.rows, s.procs[p], c.maxAttempts), selected[0];
      && IsEffect(c, s, ReapNext(p), p, e)
      && (exists at :: e.self == Some(Reaper(phase, selected[1..], at)))
      && (Fails(c, phase, sel, sel.step) ==>
            e.write == WriteRow(sel.step, Flush(sel.row, sel.row.(status := Error), s.rows[sel.step])))
  {}

  lemma SelectedIs(c: Config, r: Run, p: nat, phase: Phase, selected: seq<Selected>, at: Option<Recompute>)
    requires r.states != [] && OnRun(c, r) && ActsAs(Last(r), p, Reaper(phase, selected, at)) && selected != []
    ensures selected[0].step in Last(r).rows && selected[0].row.status in {Queued, Running, AwaitingCallback}
    ensures p < Last(r).nextId
  {
    RunInv(c, r, |r.states| - 1);
    assert ProcOk(c.graph, Last(r).rows, Last(r).hist.everDone, Last(r).procs[p]);
    assert selected[0] in selected;
  }

  /** A reaper works through its list until it has failed the row of `n`. */
  lemma ReaperUndoes(c: Config, r: Run, p: nat, phase: Phase, selected: seq<Selected>, at: Option<Recompute>,
                     n: StepName)
    requires r.states != [] && OnRun(c, r) && ActsAs(Last(r), p, Reaper(phase, selected, at))
    requires exists sel :: sel in selected && Fails(c, phase, sel, n)
    ensures MayBecome(c, r, n, Error)
    decreases |selected|, at.Some?
  {
    hide OnRun, IsEffect, MayBecome;
    if at.Some? {
      FinishRecompute(c, r, p, phase, selected, at.value);
      var r1 :| OnRun(c, r1) && Longer(r, r1) && ActsAs(Last(r1), p, Reaper(phase, selected, None));
      ReaperUndoes(c, r1, p, phase, selected, None, n);
      MayBecomeBefore(c, r, r1, n, Error);
    } else {
      SelectedIs(c, r, p, phase, selected, at);
      ReapLeads(c, Last(r), p, phase, selected);
      var e := ReapNextEffect(Last(r).rows, Last(r).procs[p], c.maxAttempts);
      var r1 := TakeStep(c, r, ReapNext(p), p, e);
      if Fails(c, phase, selected[0], n) {
        Became(c, r, r1, n, Error);
      } else {
        var sel :| sel in selected && Fails(c, phase, sel, n);
        assert sel in selected[1..];
        var at1 :| e.self == Some(Reaper(phase, selected[1..], at1));
        ReaperUndoes(c, r1, p, phase, selected[1..], at1, n);
        MayBecomeBefore(c, r, r1, n, Error);
      }
    }
  }

  lemma Became(c: Config, r: Run, r': Run, n: StepName, status: StepStatus)
    requires OnRun(c, r') && Longer(r, r') && HasStatus(Last(r'), n, status)
    ensures MayBecome(c, r, n, status)
  {
    hide OnRun, Longer;
  }

  /** Whoever undoes a step may do so: some continuation takes the step out of its final status. */
  lemma UndoerUndoes(c: Config, r: Run, p: nat, n: StepName, status: StepStatus)
    requires r.states != [] && OnRun(c, r) && Ended(status) && p in Last(r).procs
    requires Undoes(c, Last(r).procs[p], n, status) && (LoadsDocument(Last(r), p) ==> Last(r).doc != Failed)
    requires status == Error ==> InputsAreAncestors(c.graph)
    ensures MayLeave(c, r, n, status)
  {
    hide OnRun, InputsAreAncestors, MayBecome;
    match Last(r).procs[p]
    case Delivery(_, _, _) => HandlerUndoes(c, r, p, n, status);
    case Webhook(hook, stage) => DecidingUndoes(c, r, p, hook, stage.row);
    case Reaper(phase, selected, at) => ReaperUndoes(c, r, p, phase, selected, at, n);
  }

  /** The handler is about to check that its document has not failed. */
  predicate LoadsDocument(s: State, p: nat) {
    IsDelivery(s.procs, p) && s.procs[p].stage.Loaded?
  }

  lemma HandlerIsAtItsRow(c: Config, r: Run, p: nat)
    requires r.states != [] && OnRun(c, r) && IsDelivery(Last(r).procs, p)
    ensures var x := Last(r).procs[p]; StandsAt(Last(r), p, x.step, x.stage)
  {
    RunInv(c, r, |r.states| - 1);
    assert ProcOk(c.graph, Last(r).rows, Last(r).hist.everDone, Last(r).procs[p]);
  }

  lemma HandlerUndoes(c: Config, r: Run, p: nat, n: StepName, status: StepStatus)
    requires r.states != [] && OnRun(c, r) && Ended(status) && IsDelivery(Last(r).procs, p)
    requires Undoes(c, Last(r).procs[p], n, status) && (LoadsDocument(Last(r), p) ==> Last(r).doc != Failed)
    requires status == Error ==> InputsAreAncestors(c.graph)
    ensures MayLeave(c, r, n, status)
  {
    HandlerIsAtItsRow(c, r, p);
    hide OnRun, InputsAreAncestors, StandsAt, MayBecome;
    match Last(r).procs[p].stage
    case Loaded(byName) => LoadedUndoes(c, r, p, n, byName, status);
    case Checked(byName, seen) => CheckedUndoes(c, r, p, n, byName, seen, status);
    case Executing(byName, seen) => ExecutingUndoes(c, r, p, n, byName, seen, status);
    case Saving(byName, seen, output) => SavingOverwrites(c, r, p, n, byName, seen, output);
    case Failing(byName, seen) => FailingOverwrites(c, r, p, n, byName, seen);
  }

  // ---- the exact condition ----

  /** Every continuation of `r` keeps the status of step `n`. */
  ghost predicate Final(c: Config, r: Run, n: StepName, status: StepStatus)
    requires r.states != []
  {
    forall r' {:trigger Grows(r, r')} :: IsRun(c, r') && Grows(r, r') ==> HasStatus(Last(r'), n, status)
  }

  /** DONE and ERROR are final in a state exactly if no process undoes the step there. (A document that is
      FAILED stops handlers that have yet to check it.) */
  lemma FinalExactly(c: Config, r: Run, n: StepName, status: StepStatus)
    requires OnRun(c, r) && r.states != [] && Ended(status) && HasStatus(Last(r), n, status)
    requires Last(r).doc != Failed || forall p :: !LoadsDocument(Last(r), p)
    requires status == Error ==> InputsAreAncestors(c.graph)
    ensures Final(c, r, n, status) <==> !Undoable(c, Last(r), n, status)
  {
    hide OnRun, InputsAreAncestors, Undoes, HasStatus, MayLeave, Final;
    if Undoable(c, Last(r), n, status) {
      var p :| p in Last(r).procs && Undoes(c, Last(r).procs[p], n, status);
      UndoerUndoes(c, r, p, n, status);
      LeavingIsNotFinal(c, r, n, status);
    } else {
      SealedIsFinal(c, r, n, status);
    }
  }

  lemma LeavingIsNotFinal(c: Config, r: Run, n: StepName, status: StepStatus)
    requires r.states != [] && MayLeave(c, r, n, status)
    ensures !Final(c, r, n, status)
  {
    hide ValidConfig, IsRun;
    var other :| other != status && MayBecome(c, r, n, other);
    var r' :| OnRun(c, r') && Longer(r, r') && HasStatus(Last(r'), n, other);
    assert Grows(r, r');
  }

  lemma SealedIsFinal(c: Config, r: Run, n: StepName, status: StepStatus)
    requires r.states != [] && Sealed(c, Last(r), n, status)
    ensures Final(c, r, n, status)
  {
    forall r' {:trigger Grows(r, r')} | IsRun(c, r') && Grows(r, r') ensures HasStatus(Last(r'), n, status) {
      SealedStays(c, r', |r.states| - 1, |r'.states| - 1, n, status);
    }
  }
}

/** Where stored results come from: a step's result is what its step function returned, external_call's is the
    payload of a completed webhook, and what a handler reads of other steps is that as well. In every run, with
    crashes, redeliveries and overlapping writers. */
module Provenance {
  import opened Model
  import opened Dag
  import opened Rules
  import opened Protocol
  import opened Claims
  import opened NoOverlaps
  import opened Outcomes

  // ---- what was executed so far ----

  type Outputs = set<(StepName, Output)>

  /** What this action executed. */
  ghost function OutputsOf(s: State, a: Action): Outputs {
    if a.ExecuteOk? && a.p in s.procs && s.procs[a.p].Delivery? then {(s.procs[a.p].step, a.output)} else {}
  }

  ghost function OutputsBefore(r: Run, i: nat): Outputs
    requires |r.states| == |r.actions| + 1 && i <= |r.actions|
  {
    if i == 0 then {} else OutputsBefore(r, i - 1) + OutputsOf(r.states[i-1], r.actions[i-1])
  }

  /** In action `j` a handler of step `n` executed its step function, which returned `o`. */
  ghost predicate ExecutedAt(r: Run, j: nat, n: StepName, o: Output)
    requires |r.states| == |r.actions| + 1 && j < |r.actions|
  {
    && r.actions[j].ExecuteOk? && r.actions[j].output == o
    && r.actions[j].p in r.states[j].procs
    && r.states[j].procs[r.actions[j].p].Delivery? && r.states[j].procs[r.actions[j].p].step == n
  }

  ghost predicate ExecutedBefore(r: Run, i: nat, n: StepName, o: Output)
    requires |r.states| == |r.actions| + 1 && i <= |r.actions|
  {
    exists j :: 0 <= j < i && ExecutedAt(r, j, n, o)
  }

  lemma {:induction false} OutputsWereExecuted(r: Run, i: nat, n: StepName, o: Output)
    requires |r.states| == |r.actions| + 1 && i <= |r.actions| && (n, o) in OutputsBefore(r, i)
    ensures ExecutedBefore(r, i, n, o)
  {
    assert i > 0;
    if (n, o) in OutputsBefore(r, i - 1) {
      OutputsWereExecuted(r, i - 1, n, o);
      var j :| 0 <= j < i - 1 && ExecutedAt(r, j, n, o);
    } else {
      assert ExecutedAt(r, i - 1, n, o);
    }
  }

  // ---- the invariant ----

  /** `o` is the payload of a completed webhook in the log. */
  ghost predicate Answered(hooks: seq<Hook>, o: Output) {
    exists h :: h in hooks && h.completed && o == Dict(h.payload)
  }

  ghost predicate ResultFrom(done: Outputs, hooks: seq<Hook>, n: StepName, result: Option<Output>) {
    result.Some? ==> if n == ExternalCall then Answered(hooks, result.value) else (n, result.value) in done
  }

  ghost predicate RowsFrom(done: Outputs, hooks: seq<Hook>, rows: Rows) {
    forall n :: n in rows ==> ResultFrom(done, hooks, n, rows[n].result)
  }

  ghost predicate ProcFrom(done: Outputs, hooks: seq<Hook>, x: Proc) {
    match x
    case Delivery(n, _, stage) =>
      && (CopyIn(stage).Some? ==> RowsFrom(done, hooks, CopyIn(stage).value))
      && (stage.Saving? && !stage.output.JobHandle? ==> (n, stage.output) in done)
    case Webhook(hook, _) => hook in hooks
    case _ => true
  }

  ghost predicate Sourced(s: State, done: Outputs) {
    RowsFrom(done, s.hooks, s.rows) && forall p :: p in s.procs ==> ProcFrom(done, s.hooks, s.procs[p])
  }

  ghost function HooksAfter(s: State, e: Effect): seq<Hook> {
    if e.hook.Some? then s.hooks + [e.hook.value] else s.hooks
  }

  ghost predicate SourcedEffect(s: State, e: Effect, done: Outputs) {
    var hooks := HooksAfter(s, e);
    && (e.write.WriteRow? ==> ResultFrom(done, hooks, e.write.step, e.write.row.result))
    && (e.self.Some? ==> ProcFrom(done, hooks, e.self.value))
    && (e.spawn.Some? ==> ProcFrom(done, hooks, e.spawn.value))
  }

  lemma RowsFromStays(done: Outputs, hooks: seq<Hook>, done': Outputs, hooks': seq<Hook>, rows: Rows)
    requires RowsFrom(done, hooks, rows) && done <= done' && forall h :: h in hooks ==> h in hooks'
    ensures RowsFrom(done', hooks', rows)
  {
    forall n | n in rows ensures ResultFrom(done', hooks', n, rows[n].result) {
      assert ResultFrom(done, hooks, n, rows[n].result);
    }
  }

  lemma ProcFromStays(done: Outputs, hooks: seq<Hook>, done': Outputs, hooks': seq<Hook>, x: Proc)
    requires ProcFrom(done, hooks, x) && done <= done' && forall h :: h in hooks ==> h in hooks'
    ensures ProcFrom(done', hooks', x)
  {
    if x.Delivery? && CopyIn(x.stage).Some? {
      RowsFromStays(done, hooks, done', hooks', CopyIn(x.stage).value);
    }
  }

  lemma ApplyKeepsSourced(s: State, p: nat, e: Effect, done: Outputs, done': Outputs)
    requires Sourced(s, done) && SourcedEffect(s, e, done') && done <= done'
    ensures Sourced(Apply(s, p, e), done')
  {
    hide ResultFrom;
    var s' := Apply(s, p, e);
    RowsFromStays(done, s.hooks, done', s'.hooks, s.rows);
    forall q | q in s'.procs ensures ProcFrom(done', s'.hooks, s'.procs[q]) {
      if q in s.procs && s'.procs[q] == s.procs[q] {
        ProcFromStays(done, s.hooks, done', s'.hooks, s.procs[q]);
      }
    }
  }

  lemma AttemptSourced(c: Config, s: State, a: Action, done: Outputs)
    requires Inv(c, s) && Sourced(s, done) && Enabled(c, s, a) && (a.MarkRunning? || a.FailAttempt?)
    ensures SourcedEffect(s, Act(c, s, a), done)
  {
    hide Answered;
    var x := s.procs[a.p];
    assert ProcFrom(done, s.hooks, x);
    assert ResultFrom(done, s.hooks, x.step, s.rows[x.step].result);
  }

  lemma SaveSourced(c: Config, s: State, a: Action, done: Outputs)
    requires Inv(c, s) && Sourced(s, done) && Enabled(c, s, a) && a.Save?
    ensures SourcedEffect(s, Act(c, s, a), done)
  {
    SaveEffectSourced(c, s, a.p, done);
  }

  lemma SaveEffectSourced(c: Config, s: State, p: nat, done: Outputs)
    requires Inv(c, s) && Sourced(s, done) && HandlerAt(s, p) && s.procs[p].stage.Saving?
    requires s.procs[p].step in s.procs[p].stage.rows
    ensures SourcedEffect(s, SaveEffect(s.rows[s.procs[p].step], s.procs[p]), done)
  {
    hide Answered;
    var x := s.procs[p];
    assert ProcOk(c.graph, s.rows, s.hist.everDone, x) && ProcFrom(done, s.hooks, x);
    assert ResultFrom(done, s.hooks, x.step, s.rows[x.step].result);
  }

  lemma DecisionSourced(c: Config, s: State, a: Action, done: Outputs)
    requires Sourced(s, done) && Enabled(c, s, a) && (a.ClaimNext? || a.SettleCallback? || a.ReapNext?)
    ensures SourcedEffect(s, Act(c, s, a), done)
  {
    assert ProcFrom(done, s.hooks, s.procs[a.p]);
    if a.SettleCallback? && s.procs[a.p].hook.completed {
      assert Answered(s.hooks, Dict(s.procs[a.p].hook.payload));
    }
  }

  lemma ExecuteSourced(c: Config, s: State, a: Action, done: Outputs)
    requires Sourced(s, done) && Enabled(c, s, a) && a.ExecuteOk?
    ensures SourcedEffect(s, Act(c, s, a), done + OutputsOf(s, a))
  {
    var done' := done + OutputsOf(s, a);
    ProcFromStays(done, s.hooks, done', s.hooks, s.procs[a.p]);
  }

  lemma MoveSourced(c: Config, s: State, a: Action, done: Outputs)
    requires Sourced(s, done) && Enabled(c, s, a) && !Commits(a) && !Ends(a) && !a.ExecuteOk? && !a.RecomputeStep?
    ensures SourcedEffect(s, Act(c, s, a), done)
  {
    hide ResultFrom;
    assert Subject(s, a) in s.procs ==> ProcFrom(done, s.hooks, s.procs[Subject(s, a)]);
  }

  lemma RecomputeSourced(c: Config, s: State, a: Action, done: Outputs)
    requires Sourced(s, done) && Enabled(c, s, a) && a.RecomputeStep?
    ensures SourcedEffect(s, Act(c, s, a), done)
  {
    hide ResultFrom, DeriveDocumentStatus;
    assert ProcFrom(done, s.hooks, s.procs[a.p]);
  }

  lemma NextKeepsSourced(c: Config, s: State, a: Action, s': State, done: Outputs)
    requires Inv(c, s) && Sourced(s, done) && Next(c, s, a, s')
    ensures Sourced(s', done + OutputsOf(s, a))
  {
    hide Inv, Sourced, Enabled, Act, SourcedEffect;
    if a.ExecuteOk? {
      ExecuteSourced(c, s, a, done);
    } else {
      assert done + OutputsOf(s, a) == done;
      if a.Save? {
        SaveSourced(c, s, a, done);
      } else if HandlerCommits(a) {
        AttemptSourced(c, s, a, done);
      } else if Commits(a) {
        DecisionSourced(c, s, a, done);
      } else if Ends(a) {
        EndSourced(c, s, a, done);
      } else if a.RecomputeStep? {
        RecomputeSourced(c, s, a, done);
      } else {
        MoveSourced(c, s, a, done);
      }
    }
    ApplyKeepsSourced(s, Subject(s, a), Act(c, s, a), done, done + OutputsOf(s, a));
  }

  lemma EndSourced(c: Config, s: State, a: Action, done: Outputs)
    requires Enabled(c, s, a) && Ends(a)
    ensures SourcedEffect(s, Act(c, s, a), done)
  {
    hide Enabled, Act;
    EndersVanish(c, s, a);
  }

  lemma StartsSourced(c: Config)
    ensures Sourced(Initial(c), {})
  {}

  lemma {:induction false} RunSourced(c: Config, r: Run, i: nat)
    requires ValidConfig(c) && IsRun(c, r) && i < |r.states|
    ensures Sourced(r.states[i], OutputsBefore(r, i))
  {
    assert |r.states| == |r.actions| + 1;
    hide ValidConfig, IsRun, Sourced;
    if i == 0 {
      RunStartsSourced(c, r);
    } else {
      RunSourced(c, r, i - 1);
      StepSourced(c, r, i - 1);
    }
  }

  lemma RunStartsSourced(c: Config, r: Run)
    requires IsRun(c, r)
    ensures Sourced(r.states[0], OutputsBefore(r, 0))
  {
    StartsSourced(c);
  }

  lemma StepSourced(c: Config, r: Run, i: nat)
    requires ValidConfig(c) && IsRun(c, r) && |r.states| == |r.actions| + 1 && i < |r.actions|
    requires Sourced(r.states[i], OutputsBefore(r, i))
    ensures Sourced(r.states[i+1], OutputsBefore(r, i + 1))
  {
    hide ValidConfig, IsRun, Inv, Sourced, Next, OutputsOf;
    RunInv(c, r, i);
    StepOf(c, r, i);
    NextKeepsSourced(c, r.states[i], r.actions[i], r.states[i+1], OutputsBefore(r, i));
  }

  // ---- stored results ----

  /** In any run, a result stored for a step other than external_call was returned by that step's function,
      executed by a handler of that step earlier in the run. */
  lemma ResultsWereExecuted(c: Config, r: Run, i: nat, n: StepName, o: Output)
    requires ValidConfig(c) && IsRun(c, r) && i < |r.states| && n in r.states[i].rows && n != ExternalCall
    requires r.states[i].rows[n].result == Some(o)
    ensures exists j ::
              && 0 <= j < i && r.actions[j].ExecuteOk? && r.actions[j].output == o
              && r.actions[j].p in r.states[j].procs && r.states[j].procs[r.actions[j].p].Delivery?
              && r.states[j].procs[r.actions[j].p].step == n
  {
    RunSourced(c, r, i);
    assert ResultFrom(OutputsBefore(r, i), r.states[i].hooks, n, r.states[i].rows[n].result);
    OutputsWereExecuted(r, i, n, o);
    var j :| 0 <= j < i && ExecutedAt(r, j, n, o);
    assert r.actions[j].ExecuteOk?;
  }

  /** In any run, the result stored for external_call is the payload of a completed webhook in the log. */
  lemma PartnerResultWasSent(c: Config, r: Run, i: nat, o: Output)
    requires ValidConfig(c) && IsRun(c, r) && i < |r.states| && ExternalCall in r.states[i].rows
    requires r.states[i].rows[ExternalCall].result == Some(o)
    ensures exists h :: h in r.states[i].hooks && h.completed && o == Dict(h.payload)
  {
    RunSourced(c, r, i);
    assert ResultFrom(OutputsBefore(r, i), r.states[i].hooks, ExternalCall, r.states[i].rows[ExternalCall].result);
  }

  // ---- what a step function is given ----

  /** `metadata` and `chunking` are given what `ocr` returned, and `external_call` is given what all three
      returned, each in its place. */
  ghost predicate GivenOutputs(r: Run, i: nat, n: StepName, input: Option<StepInput>)
    requires |r.states| == |r.actions| + 1 && i <= |r.actions|
  {
    match n
    case Metadata => input.Some? && input.value.OcrText? && ExecutedBefore(r, i, Ocr, Text(input.value.text))
    case Chunking => input.Some? && input.value.OcrText? && ExecutedBefore(r, i, Ocr, Text(input.value.text))
    case ExternalCall =>
      && input.Some? && input.value.CallArguments?
      && ExecutedBefore(r, i, Ocr, Text(input.value.text))
      && input.value.metadata.Some? && ExecutedBefore(r, i, Metadata, input.value.metadata.value)
      && ExecutedBefore(r, i, Chunking, Chunks(input.value.chunks))
    case _ => input == Some(NoInput)
  }

  /** Whenever a handler executes, in any run, its step function is given what the steps it reads returned. */
  lemma InputsWereExecuted(c: Config, r: Run, i: nat, p: nat)
    requires ValidConfig(c) && IsRun(c, r) && i < |r.states| && InputsAreAncestors(c.graph)
    requires p in r.states[i].procs && r.states[i].procs[p].Delivery? && r.states[i].procs[p].stage.Executing?
    ensures var x := r.states[i].procs[p]; GivenOutputs(r, i, x.step, TransformInput(x.step, x.stage.rows))
  {
    var x := r.states[i].procs[p];
    InputsAreThere(c, r, i, p);
    RunSourced(c, r, i);
    assert ProcFrom(OutputsBefore(r, i), r.states[i].hooks, x);
    forall k | k in InputsOf(x.step) && k != ExternalCall
      ensures HasResult(x.stage.rows, k) && ExecutedBefore(r, i, k, x.stage.rows[k].result.value)
    {
      assert ResultFrom(OutputsBefore(r, i), r.states[i].hooks, k, x.stage.rows[k].result);
      OutputsWereExecuted(r, i, k, x.stage.rows[k].result.value);
    }
    InputsOfRows(r, i, x.step, x.stage.rows);
  }

  lemma InputsOfRows(r: Run, i: nat, n: StepName, rows: Rows)
    requires |r.states| == |r.actions| + 1 && i <= |r.actions|
    requires forall k :: k in InputsOf(n) && k != ExternalCall ==>
      HasResult(rows, k) && ExecutedBefore(r, i, k, rows[k].result.value)
    ensures GivenOutputs(r, i, n, TransformInput(n, rows))
  {
    hide ExecutedBefore;
    assert Ocr in InputsOf(n) ==> HasResult(rows, Ocr) && ExecutedBefore(r, i, Ocr, rows[Ocr].result.value);
    assert Metadata in InputsOf(n) ==>
      HasResult(rows, Metadata) && ExecutedBefore(r, i, Metadata, rows[Metadata].result.value);
    assert Chunking in InputsOf(n) ==>
      HasResult(rows, Chunking) && ExecutedBefore(r, i, Chunking, rows[Chunking].result.value);
  }

  // ---- what a READY document shows ----

  /** The aggregate shows what the steps returned and what the partner sent for the job, each in its place. */
  ghost predicate ShowsOutputs(r: Run, i: nat, d: ExtractedData)
    requires |r.states| == |r.actions| + 1 && i <= |r.actions|
  {
    && d.ocrText.Some? && ExecutedBefore(r, i, Ocr, Text(d.ocrText.value))
    && d.metadata.Some? && ExecutedBefore(r, i, Metadata, d.metadata.value)
    && d.chunks.Some? && ExecutedBefore(r, i, Chunking, Chunks(d.chunks.value))
    && exists h :: h in r.states[i].hooks && h.completed && d.externalJobId == Some(h.job)
         && d.partnerResult == Some(Dict(h.payload))
  }

  /** Without overlap, a READY document shows the outputs of its steps, its job id, and the payload of a
      completed webhook for that job. */
  lemma ReadyShowsOutputs(c: Config, r: Run, i: nat)
    requires ValidConfig(c) && IsRun(c, r) && NoOverlapEver(r) && i < |r.states| && r.states[i].doc == Ready
    requires {Ocr, Metadata, Chunking, ExternalCall} <= r.states[i].rows.Keys
    ensures ShowsOutputs(r, i, Extracted(r.states[i].rows))
  {
    var s := r.states[i];
    RunSettling(c, r, i);
    ReadyRows(c, s);
    RunSourced(c, r, i);
    ShownOutput(r, i, Ocr);
    ShownOutput(r, i, Metadata);
    ShownOutput(r, i, Chunking);
    hide ExecutedBefore;
    assert Confirmed(s.hooks, s.rows[ExternalCall]);
  }

  lemma ShownOutput(r: Run, i: nat, n: StepName)
    requires |r.states| == |r.actions| + 1 && i <= |r.actions| && Sourced(r.states[i], OutputsBefore(r, i))
    requires n != ExternalCall && HasResult(r.states[i].rows, n)
    ensures ExecutedBefore(r, i, n, r.states[i].rows[n].result.value)
  {
    assert ResultFrom(OutputsBefore(r, i), r.states[i].hooks, n, r.states[i].rows[n].result);
    OutputsWereExecuted(r, i, n, r.states[i].rows[n].result.value);
  }

  // ---- a save stores the handler's own output ----

  /** Action `a` leaves in the row of its handler's step exactly what the handler's execution returned. */
  ghost predicate StoresOwnOutput(s: State, a: Action, s': State) {
    && a.Save? && HandlerAt(s, a.p) && s.procs[a.p].stage.Saving?
    && var n := s.procs[a.p].step;
    && n in s'.rows && SavedBy(s.rows[n], s.procs[a.p].stage.output, s'.rows[n])
  }

  /** Without overlap, a save stores exactly what the handler's own execution returned. */
  lemma SaveStoresOutput(c: Config, r: Run, i: nat)
    requires ValidConfig(c) && IsRun(c, r) && NoOverlapEver(r) && i < |r.actions| && r.actions[i].Save?
    ensures StoresOwnOutput(r.states[i], r.actions[i], r.states[i+1])
  {
    assert |r.states| == |r.actions| + 1;
    hide ValidConfig, IsRun, NoOverlapEver, Inv, Fresh, RowsSettled, Next, StoresOwnOutput;
    RunSettling(c, r, i);
    StepOf(c, r, i);
    SaveInState(c, r.states[i], r.actions[i], r.states[i+1]);
  }

  lemma SaveInState(c: Config, s: State, a: Action, s': State)
    requires Known(c, s) && Next(c, s, a, s') && a.Save?
    ensures StoresOwnOutput(s, a, s')
  {
    var x := s.procs[a.p];
    assert ProcFresh(s.rows, x) && ProcOk(c.graph, s.rows, s.hist.everDone, x);
    FlushOfFresh(s.rows[x.step], Saved(s.rows[x.step], x.stage.output));
  }
}

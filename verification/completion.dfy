/** No actor is ever stuck, so runs that nobody can continue have come to their end. */
module Completion {
  import opened Model
  import opened Dag
  import opened Rules
  import opened Protocol
  import opened Claims
  import opened Outcomes
  import opened Progress
  import opened Liveness
  import opened Bounds
  import opened Assistance

  /** What the process can do next by itself. */
  function StageStep(p: nat, stage: Stage): Action {
    match stage
    case Waiting => Deliver(p)
    case Loaded(_) => LoadDocument(p)
    case Checked(_, _) => MarkRunning(p)
    case Executing(_, _) => ExecuteFail(p)
    case Saving(_, _, _) => Save(p)
    case Failing(_, _) => FailAttempt(p)
    case Triggering(_) => ReadReady(p)
    case Claiming(_, todo) => if todo == [] then EndClaims(p) else ClaimNext(p)
    case Publishing(_, _, _) => PublishClaimed(p)
    case Recomputing(_, _) => RecomputeStep(p)
    case Acking => Ack(p)
    case Nacking => Nack(p)
  }

  function HookStep(p: nat, stage: HookStage): Action {
    match stage
    case Recorded => LookupJob(p)
    case Deciding(_) => SettleCallback(p)
    case HookRecomputing(_) => RecomputeStep(p)
  }

  function OwnStep(p: nat, x: Proc): Action {
    match x
    case Delivery(_, _, stage) => StageStep(p, stage)
    case Webhook(_, stage) => HookStep(p, stage)
    case Reaper(phase, selected, recomputing) =>
      if recomputing.Some? then RecomputeStep(p)
      else if selected != [] then ReapNext(p)
      else if phase == InFlight then ScanCallbacks(p, [])
      else EndReap(p)
    case Creator(entries) => if entries == [] then EndCreate(p) else PublishEntry(p)
  }

  lemma HandlerCanAct(c: Config, s: State, p: nat)
    requires Inv(c, s) && p in s.procs && s.procs[p].Delivery?
    ensures Enabled(c, s, OwnStep(p, s.procs[p]))
  {
    var x := s.procs[p];
    assert ProcOk(c.graph, s.rows, s.hist.everDone, x);
    if x.stage.Claiming? && x.stage.todo != [] {
      assert x.stage.todo[0] in x.stage.todo;
    }
  }

  lemma CallIsARow(c: Config, s: State)
    requires ValidConfig(c) && Inv(c, s)
    ensures ExternalCall in s.rows
  {
    assert ExternalCall in TerminalNodes(c.graph);
  }

  lemma WebhookCanAct(c: Config, s: State, p: nat)
    requires ExternalCall in s.rows && p in s.procs && s.procs[p].Webhook?
    ensures Enabled(c, s, OwnStep(p, s.procs[p]))
  {}

  lemma ReaperCanAct(c: Config, s: State, p: nat)
    requires Inv(c, s) && p in s.procs && s.procs[p].Reaper?
    ensures Enabled(c, s, OwnStep(p, s.procs[p]))
  {
    var x := s.procs[p];
    assert ProcOk(c.graph, s.rows, s.hist.everDone, x);
    if x.selected != [] {
      assert x.selected[0] in x.selected;
    }
  }

  lemma CreatorCanAct(c: Config, s: State, p: nat)
    requires p in s.procs && s.procs[p].Creator?
    ensures Enabled(c, s, OwnStep(p, s.procs[p]))
  {}

  lemma OwnStepIsOwn(s: State, p: nat)
    requires p in s.procs
    ensures var a := OwnStep(p, s.procs[p]);
      Subject(s, a) == p && !a.Crash? && !a.Drop? && !a.Redeliver? && !a.DeadLetter?
  {}

  /** In every reachable state each process has an action of its own that is enabled: no handler, webhook,
      scan or creation ever has to wait for another actor, or for a crash. */
  lemma NobodyIsStuck(c: Config, r: Run, i: nat, p: nat)
    requires ValidConfig(c) && IsRun(c, r) && i < |r.states| && p in r.states[i].procs
    ensures var s := r.states[i]; var a := OwnStep(p, s.procs[p]);
      && Enabled(c, s, a) && Subject(s, a) == p
      && !a.Crash? && !a.Drop? && !a.Redeliver? && !a.DeadLetter?
  {
    RunInv(c, r, i);
    CallIsARow(c, r.states[i]);
    hide ValidConfig, IsRun, Inv, Enabled, OwnStep;
    OwnStepIsOwn(r.states[i], p);
    match r.states[i].procs[p]
    case Delivery(_, _, _) => HandlerCanAct(c, r.states[i], p);
    case Webhook(_, _) => WebhookCanAct(c, r.states[i], p);
    case Reaper(_, _, _) => ReaperCanAct(c, r.states[i], p);
    case Creator(_) => CreatorCanAct(c, r.states[i], p);
  }

  // ---- an executing handler may succeed ----

  /** An id above all those handed out so far. */
  ghost function NewJobId(issued: set<JobId>): (job: JobId)
    ensures forall other :: other in issued ==> other < job
  {
    if issued == {} then 0
    else
      var one :| one in issued;
      var above := NewJobId(issued - {one});
      assert forall other :: other in issued ==> other == one || other in issued - {one};
      if above > one then above else one + 1
  }

  /** Something that the step function of `step` may return. */
  ghost function SomeOutput(step: StepName, issued: set<JobId>): (output: Output)
    ensures Produces(step, output) && (output.JobHandle? ==> output.job !in issued)
  {
    match step
    case Ocr => Text("")
    case Chunking => Chunks([])
    case ExternalCall => JobHandle(NewJobId(issued))
    case _ => Dict("")
  }

  /** Every executing handler can succeed as well as fail: its inputs are there, and some output fits. */
  lemma ExecutingCanSucceed(c: Config, r: Run, i: nat, p: nat)
    requires ValidConfig(c) && IsRun(c, r) && i < |r.states| && InputsAreAncestors(c.graph)
    requires p in r.states[i].procs && r.states[i].procs[p].Delivery? && r.states[i].procs[p].stage.Executing?
    ensures var s := r.states[i];
      Enabled(c, s, ExecuteOk(p, SomeOutput(s.procs[p].step, s.hist.issued))) && Enabled(c, s, ExecuteFail(p))
  {
    NobodyIsStuck(c, r, i, p);
    InputsAreThere(c, r, i, p);
  }

  // ---- where runs end ----

  /** A creation, or a recomputation of a webhook or a reaper. */
  predicate Assists(x: Proc) {
    x.Creator? || (!x.Delivery? && RecomputeOf(x).Some?)
  }

  ghost predicate CanMove(c: Config, s: State, p: nat) {
    p in s.procs && Enabled(c, s, OwnStep(p, s.procs[p]))
  }

  /** Some handler can take its next action. */
  ghost predicate HandlerCanGoOn(c: Config, s: State) {
    exists p :: CanMove(c, s, p) && s.procs[p].Delivery?
  }

  /** The creation can take its next action, or a recomputation outside the handlers can. */
  ghost predicate OtherCanGoOn(c: Config, s: State) {
    exists p :: CanMove(c, s, p) && Assists(s.procs[p])
  }

  /** Where a run ends: a run that loses no work and that no handler, creation or recomputation can
      continue has taken its document to FAILED, to READY, or to the wait for the partner. */
  lemma RunsEndWell(c: Config, r: Run, i: nat)
    requires ValidConfig(c) && IsRun(c, r) && NoOverlapEver(r) && NothingLost(r) && i < |r.states|
    requires !HandlerCanGoOn(c, r.states[i]) && !OtherCanGoOn(c, r.states[i])
    ensures AtRest(r.states[i])
    ensures r.states[i].doc == Failed || r.states[i].doc == Ready || CallIsAllThatWaits(c, r.states[i])
  {
    forall p | p in r.states[i].procs ensures !r.states[i].procs[p].Delivery? && !Assists(r.states[i].procs[p]) {
      NobodyIsStuck(c, r, i, p);
      assert CanMove(c, r.states[i], p);
    }
    NoStranding(c, r, i);
  }

  /** Without overlap, crashes and reapers the handlers of a run have taken a bounded number of actions, and the
      creation and the webhooks' recomputations a bounded number of theirs, however many webhooks arrive. At its
      end the document has got to where it should, unless one of these actors can still take another of its
      actions. */
  lemma RunsComplete(c: Config, r: Run, i: nat)
    requires ValidConfig(c) && IsRun(c, r) && NoOverlapEver(r) && CrashFree(r) && ReaperFree(r) && i == |r.states| - 1
    ensures CountAll(Workers(r)) <= |c.graph.nodes| * (PerDelivery(c) * c.maxAttempts)
    ensures CountTrue(Helpers(r)) <= |c.graph.nodes| + 4
    ensures
      || HandlerCanGoOn(c, r.states[i])
      || OtherCanGoOn(c, r.states[i])
      || r.states[i].doc == Failed || r.states[i].doc == Ready || CallIsAllThatWaits(c, r.states[i])
  {
    WorkersTerminate(c, r);
    HelpersTerminate(c, r);
    CrashFreeLosesNothing(c, r);
    if !HandlerCanGoOn(c, r.states[i]) && !OtherCanGoOn(c, r.states[i]) {
      RunsEndWell(c, r, i);
    }
  }
}

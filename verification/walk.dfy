/** Runs of the shipped pipeline, built action by action: one handler at a time, from the creation of the document
    to its last step. */
module Walks {
  import opened Model
  import opened Dag
  import opened Rules
  import opened Protocol
  import opened Claims
  import opened Progress
  import opened Bounds
  import opened Completion
  import opened Stores
  import opened Transitions
  import opened Handlers
  import opened Webhooks
  import opened Documents
  import opened Discharges

  /** No crash, no loss, no scan, and webhooks are decided one at a time. */
  ghost predicate Calm(r: Run) {
    CrashFree(r) && ReaperFree(r) && NoRedelivery(r) && OneDecidesEver(r)
  }

  predicate Gentle(a: Action) {
    !a.Crash? && !a.Drop? && !a.Redeliver? && !a.ScanInFlight?
  }

  ghost predicate Built(c: Config, r: Run, calm: bool) {
    r.states != [] && OnRun(c, r) && (calm ==> Calm(r))
  }

  lemma StepOn(c: Config, calm: bool, r: Run, a: Action, p: nat, e: Effect) returns (r': Run)
    requires Built(c, r, calm) && IsEffect(c, Last(r), a, p, e)
    requires calm ==> Gentle(a) && OneDecides(Apply(Last(r), p, e))
    ensures Built(c, r', calm) && Last(r') == Apply(Last(r), p, e)
  {
    hide OnRun, Enabled, Act, Prolongs, OneDecides;
    ExtendFacts(c, r, a, p, e);
    r' := Extend(c, r, a);
    if calm {
      forall i | 0 <= i < |r'.states| ensures OneDecides(r'.states[i]) {
        assert i < |r.states| ==> r'.states[i] == r.states[i];
      }
    }
  }

  // ---- one handler at work ----

  /** Message `p` for `step` is being handled while only the messages `others` exist beside it. */
  datatype Scene = Scene(p: nat, step: StepName, rows: Rows, others: map<nat, Proc>, id: nat)

  ghost predicate Staged(r: Run, v: Scene, returned: nat, stage: Stage) {
    && r.states != [] && v.step in v.rows && v.p < v.id
    && (forall q :: q in v.others ==> q != v.p && q < v.id && v.others[q].Delivery?)
    && Last(r).procs == v.others[v.p := Delivery(v.step, returned, stage)]
    && Last(r).rows == v.rows && Last(r).doc == Processing && Last(r).nextId == v.id
  }

  /** Some run, a calm one if `calm`, ends in this scene. */
  ghost predicate CanStage(c: Config, calm: bool, v: Scene, returned: nat, stage: Stage) {
    exists r :: Built(c, r, calm) && Staged(r, v, returned, stage)
  }

  lemma StagedStands(r: Run, v: Scene, returned: nat, stage: Stage)
    requires Staged(r, v, returned, stage)
    ensures r.states != []
    ensures StandsAt(Last(r), v.p, v.step, stage) && Last(r).procs[v.p] == Delivery(v.step, returned, stage)
    ensures Last(r).rows == v.rows && Last(r).doc == Processing && v.step in v.rows
    ensures Last(r).nextId == v.id && v.id !in Last(r).procs
  {}

  /** The handler takes one action that publishes nothing. */
  lemma Move(c: Config, calm: bool, r: Run, a: Action, e: Effect, v: Scene, returned: nat, stage: Stage,
             returned': nat, stage': Stage)
    requires Built(c, r, calm) && Staged(r, v, returned, stage) && IsEffect(c, Last(r), a, v.p, e)
    requires e.self == Some(Delivery(v.step, returned', stage')) && e.spawn == None && e.doc == None
    requires calm ==> Gentle(a)
    ensures CanStage(c, calm, v.(rows := Rewrite(v.rows, e.write)), returned', stage')
  {
    hide OnRun, IsEffect, Calm;
    assert OneDecides(Apply(Last(r), v.p, e));
    var r' := StepOn(c, calm, r, a, v.p, e);
    assert Staged(r', v.(rows := Rewrite(v.rows, e.write)), returned', stage');
  }

  function Began(v: Scene): Scene
    requires v.step in v.rows
  {
    v.(rows := v.rows[v.step := v.rows[v.step].(status := Running)])
  }

  /** The handler reads its step as QUEUED and its document as PROCESSING, and marks the step RUNNING. */
  lemma Begin(c: Config, calm: bool, v: Scene)
    requires CanStage(c, calm, v, 0, Waiting) && v.step in v.rows && v.rows[v.step].status == Queued
    ensures CanStage(c, calm, Began(v), 0, Executing(Began(v).rows, Processing))
  {
    hide IsEffect, Built, Staged;
    var r :| Built(c, r, calm) && Staged(r, v, 0, Waiting);
    StagedStands(r, v, 0, Waiting);
    DeliverLeads(c, Last(r), v.p, v.step);
    Move(c, calm, r, Deliver(v.p), DeliverEffect(v.rows, Last(r).procs[v.p]), v, 0, Waiting, 0, Loaded(v.rows));
    Check(c, calm, v);
    Mark(c, calm, v);
  }

  lemma Check(c: Config, calm: bool, v: Scene)
    requires CanStage(c, calm, v, 0, Loaded(v.rows))
    ensures CanStage(c, calm, v, 0, Checked(v.rows, Processing))
  {
    hide IsEffect, Built, Staged;
    var r :| Built(c, r, calm) && Staged(r, v, 0, Loaded(v.rows));
    StagedStands(r, v, 0, Loaded(v.rows));
    LoadDocumentLeads(c, Last(r), v.p, v.step, v.rows);
    Move(c, calm, r, Action.LoadDocument(v.p), LoadDocumentEffect(Processing, Last(r).procs[v.p]), v, 0,
         Loaded(v.rows), 0, Checked(v.rows, Processing));
  }

  lemma Mark(c: Config, calm: bool, v: Scene)
    requires CanStage(c, calm, v, 0, Checked(v.rows, Processing)) && v.step in v.rows
    ensures CanStage(c, calm, Began(v), 0, Executing(Began(v).rows, Processing))
  {
    hide IsEffect, Built, Staged;
    var r :| Built(c, r, calm) && Staged(r, v, 0, Checked(v.rows, Processing));
    StagedStands(r, v, 0, Checked(v.rows, Processing));
    MarkRunningLeads(c, Last(r), v.p, v.step, v.rows, Processing);
    Move(c, calm, r, Action.MarkRunning(v.p), MarkRunningEffect(v.rows[v.step], Last(r).procs[v.p]), v, 0,
         Checked(v.rows, Processing), 0, Executing(Began(v).rows, Processing));
  }

  function Worked(v: Scene, output: Output): Scene
    requires v.step in v.rows
  {
    v.(rows := v.rows[v.step := Saved(v.rows[v.step], output)])
  }

  lemma InputsFound(c: Config, r: Run, v: Scene)
    requires OnRun(c, r) && Staged(r, v, 0, Executing(v.rows, Processing)) && InputsAreAncestors(c.graph)
    ensures TransformInput(v.step, v.rows).Some?
  {
    hide ValidConfig, IsRun, InputsAreAncestors, InputsOf, HasResult, TransformInput;
    InputsAreThere(c, r, |r.states| - 1, v.p);
  }

  /** The step function returns `output`, and it is saved. */
  lemma Work(c: Config, calm: bool, r: Run, v: Scene, output: Output)
    requires Built(c, r, calm) && Staged(r, v, 0, Executing(v.rows, Processing)) && InputsAreAncestors(c.graph)
    requires Produces(v.step, output) && (output.JobHandle? ==> output.job !in Last(r).hist.issued)
    requires v.step in v.rows
    ensures CanStage(c, calm, Worked(v, output), 0, if output.JobHandle? then Acking else Triggering(Processing))
  {
    InputsFound(c, r, v);
    hide IsEffect, Built, Staged, TransformInput, Produces, InputsAreAncestors;
    StagedStands(r, v, 0, Executing(v.rows, Processing));
    ExecuteOkLeads(c, Last(r), v.p, v.step, v.rows, Processing, output);
    Move(c, calm, r, ExecuteOk(v.p, output), ExecuteOkEffect(Last(r).procs[v.p], output), v, 0,
         Executing(v.rows, Processing), 0, Saving(v.rows, Processing, output));
    SaveOn(c, calm, v, output);
  }

  lemma SaveOn(c: Config, calm: bool, v: Scene, output: Output)
    requires CanStage(c, calm, v, 0, Saving(v.rows, Processing, output)) && v.step in v.rows
    ensures CanStage(c, calm, Worked(v, output), 0, if output.JobHandle? then Acking else Triggering(Processing))
  {
    hide IsEffect, Built, Staged;
    var r :| Built(c, r, calm) && Staged(r, v, 0, Saving(v.rows, Processing, output));
    StagedStands(r, v, 0, Saving(v.rows, Processing, output));
    SaveLeads(c, Last(r), v.p, v.step, v.rows, Processing, output);
    Move(c, calm, r, Save(v.p), SaveEffect(v.rows[v.step], Last(r).procs[v.p]), v, 0,
         Saving(v.rows, Processing, output), 0, if output.JobHandle? then Acking else Triggering(Processing));
  }

  // ---- triggering ----

  function Publishes(v: Scene, n: StepName): Scene {
    v.(others := v.others[v.id := NewMessage(n)], id := v.id + 1)
  }

  function QueuesUp(v: Scene, n: StepName): Scene
    requires n in v.rows
  {
    v.(rows := v.rows[n := v.rows[n].(status := Queued)])
  }

  /** The scene after the handler claimed and published the rest of `todo`. */
  function Onward(v: Scene, todo: seq<StepName>): (w: Scene)
    ensures w.p == v.p && w.step == v.step
    decreases |todo|
  {
    if todo == [] then v
    else if todo[0] in v.rows && v.rows[todo[0]].status == Pending
      then Onward(Publishes(QueuesUp(v, todo[0]), todo[0]), todo[1..])
    else Onward(v, todo[1..])
  }

  lemma PublishOn(c: Config, calm: bool, v: Scene, n: StepName, todo: seq<StepName>)
    requires CanStage(c, calm, v, 0, Publishing(Processing, n, todo))
    ensures CanStage(c, calm, Publishes(v, n), 0, Claiming(Processing, todo))
  {
    hide OnRun, IsEffect, Calm;
    var r :| Built(c, r, calm) && Staged(r, v, 0, Publishing(Processing, n, todo));
    StagedStands(r, v, 0, Publishing(Processing, n, todo));
    PublishClaimedLeads(c, Last(r), v.p, v.step, Processing, n, todo);
    var e := PublishClaimedEffect(Last(r).procs[v.p]);
    assert OneDecides(Apply(Last(r), v.p, e));
    var r' := StepOn(c, calm, r, PublishClaimed(v.p), v.p, e);
    assert Staged(r', Publishes(v, n), 0, Claiming(Processing, todo));
  }

  lemma ClaimOn(c: Config, calm: bool, v: Scene, todo: seq<StepName>)
    requires CanStage(c, calm, v, 0, Claiming(Processing, todo)) && todo != [] && todo[0] in v.rows
    ensures if v.rows[todo[0]].status == Pending
      then CanStage(c, calm, QueuesUp(v, todo[0]), 0, Publishing(Processing, todo[0], todo[1..]))
      else CanStage(c, calm, v, 0, Claiming(Processing, todo[1..]))
  {
    hide IsEffect, Built, Staged;
    var r :| Built(c, r, calm) && Staged(r, v, 0, Claiming(Processing, todo));
    StagedStands(r, v, 0, Claiming(Processing, todo));
    ClaimNextLeads(c, Last(r), v.p, v.step, Processing, todo);
    Move(c, calm, r, ClaimNext(v.p), ClaimNextEffect(v.rows, Last(r).procs[v.p]), v, 0, Claiming(Processing, todo), 0,
         if v.rows[todo[0]].status == Pending then Publishing(Processing, todo[0], todo[1..])
         else Claiming(Processing, todo[1..]));
  }

  lemma {:induction false} ClaimAllOn(c: Config, calm: bool, v: Scene, todo: seq<StepName>)
    requires CanStage(c, calm, v, 0, Claiming(Processing, todo)) && forall n :: n in todo ==> n in v.rows
    ensures CanStage(c, calm, Onward(v, todo), 0, Claiming(Processing, []))
    decreases |todo|
  {
    hide CanStage;
    if todo != [] {
      assert todo[0] in todo;
      ClaimOn(c, calm, v, todo);
      if v.rows[todo[0]].status == Pending {
        PublishOn(c, calm, QueuesUp(v, todo[0]), todo[0], todo[1..]);
        ClaimAllOn(c, calm, Publishes(QueuesUp(v, todo[0]), todo[0]), todo[1..]);
      } else {
        ClaimAllOn(c, calm, v, todo[1..]);
      }
    }
  }

  /** `trigger_successors` */
  lemma Trigger(c: Config, calm: bool, v: Scene)
    requires CanStage(c, calm, v, 0, Triggering(Processing))
    requires forall n :: n in ReadySuccessors(c.graph, DoneSet(v.rows)) ==> n in v.rows
    ensures CanStage(c, calm, Onward(v, ReadySuccessors(c.graph, DoneSet(v.rows))), 0,
                     Recomputing(Processing, ReadStatuses))
  {
    hide IsEffect, Built, Staged, ReadySuccessors, Onward;
    var r :| Built(c, r, calm) && Staged(r, v, 0, Triggering(Processing));
    StagedStands(r, v, 0, Triggering(Processing));
    var todo := ReadySuccessors(c.graph, DoneSet(v.rows));
    ReadReadyLeads(c, Last(r), v.p, v.step, Processing);
    Move(c, calm, r, ReadReady(v.p), Become(Last(r).procs[v.p].(stage := Claiming(Processing, todo))), v, 0,
         Triggering(Processing), 0, Claiming(Processing, todo));
    ClaimAllOn(c, calm, v, todo);
    StopClaiming(c, calm, Onward(v, todo));
  }

  lemma StopClaiming(c: Config, calm: bool, v: Scene)
    requires CanStage(c, calm, v, 0, Claiming(Processing, []))
    ensures CanStage(c, calm, v, 0, Recomputing(Processing, ReadStatuses))
  {
    hide IsEffect, Built, Staged;
    var r :| Built(c, r, calm) && Staged(r, v, 0, Claiming(Processing, []));
    StagedStands(r, v, 0, Claiming(Processing, []));
    EndClaimsLeads(c, Last(r), v.p, v.step, Processing);
    Move(c, calm, r, EndClaims(v.p), Become(Last(r).procs[v.p].(stage := Recomputing(Processing, ReadStatuses))), v,
         0, Claiming(Processing, []), 0, Recomputing(Processing, ReadStatuses));
  }

  /** The recomputation finds the document PROCESSING still. */
  lemma Recompute(c: Config, calm: bool, v: Scene)
    requires CanStage(c, calm, v, 0, Recomputing(Processing, ReadStatuses))
    requires DeriveDocumentStatus(v.rows) == Processing
    ensures CanStage(c, calm, v, 0, Acking)
  {
    hide IsEffect, Built, Staged, DeriveDocumentStatus;
    var r :| Built(c, r, calm) && Staged(r, v, 0, Recomputing(Processing, ReadStatuses));
    StagedStands(r, v, 0, Recomputing(Processing, ReadStatuses));
    var x := Last(r).procs[v.p];
    ReadStatusesLeads(c, Last(r), v.p, x);
    Move(c, calm, r, RecomputeStep(v.p), RecomputeEffect(v.rows, Processing, x), v, 0,
         Recomputing(Processing, ReadStatuses), 0, Recomputing(Processing, WriteDocument(Processing, Processing)));
    StoreNothing(c, calm, v);
  }

  lemma StoreNothing(c: Config, calm: bool, v: Scene)
    requires CanStage(c, calm, v, 0, Recomputing(Processing, WriteDocument(Processing, Processing)))
    ensures CanStage(c, calm, v, 0, Acking)
  {
    hide IsEffect, Built, Staged, DeriveDocumentStatus;
    var writing := Recomputing(Processing, WriteDocument(Processing, Processing));
    var r :| Built(c, r, calm) && Staged(r, v, 0, writing);
    StagedStands(r, v, 0, writing);
    var x := Last(r).procs[v.p];
    WriteDocumentLeads(c, Last(r), v.p, x, Processing, Processing);
    Move(c, calm, r, RecomputeStep(v.p), RecomputeEffect(v.rows, Processing, x), v, 0, writing, 0, Acking);
  }

  /** Only the processes `procs` exist. */
  ghost predicate Rests(r: Run, rows: Rows, procs: map<nat, Proc>, id: nat) {
    && r.states != [] && Last(r).procs == procs
    && Last(r).rows == rows && Last(r).doc == Processing && Last(r).nextId == id
  }

  ghost predicate CanRest(c: Config, calm: bool, rows: Rows, procs: map<nat, Proc>, id: nat) {
    exists r :: Built(c, r, calm) && Rests(r, rows, procs, id)
  }

  lemma AckOn(c: Config, calm: bool, v: Scene, returned: nat)
    requires CanStage(c, calm, v, returned, Acking)
    ensures CanRest(c, calm, v.rows, v.others, v.id)
  {
    hide OnRun, Calm;
    var r :| Built(c, r, calm) && Staged(r, v, returned, Acking);
    AckIs(c, Last(r), v.p);
    assert v.others[v.p := Delivery(v.step, returned, Acking)] - {v.p} == v.others;
    assert OneDecides(Apply(Last(r), v.p, VANISH));
    var r' := StepOn(c, calm, r, Ack(v.p), v.p, VANISH);
    assert Rests(r', v.rows, v.others, v.id);
  }

  lemma AckIs(c: Config, s: State, p: nat)
    requires IsDelivery(s.procs, p) && s.procs[p].step in s.rows && s.procs[p].stage == Acking
    ensures IsEffect(c, s, Ack(p), p, VANISH)
  {}

  // ---- the shipped pipeline ----

  predicate Shipped(c: Config) {
    c.graph == PIPELINE && c.maxAttempts >= 1
  }

  function PipelineRows(ocr: Row, metadata: Row, chunking: Row, call: Row): Rows {
    map[Ocr := ocr, Metadata := metadata, Chunking := chunking, ExternalCall := call]
  }

  function Blank(status: StepStatus): Row {
    Row(status, 0, None, None)
  }

  function Finished(output: Output): Row {
    Row(Done, 0, Some(output), None)
  }

  const OCR_DONE: Row := Finished(Text(""))
  const METADATA_DONE: Row := Finished(Dict(""))
  const CHUNKING_DONE: Row := Finished(Chunks([]))

  /** Each handler is about to begin. */
  const OCR_SCENE: Scene :=
    Scene(1, Ocr, PipelineRows(Blank(Queued), Blank(Pending), Blank(Pending), Blank(Pending)), map[], 2)
  const METADATA_SCENE: Scene :=
    Scene(2, Metadata, PipelineRows(OCR_DONE, Blank(Queued), Blank(Queued), Blank(Pending)),
          map[3 := NewMessage(Chunking)], 4)
  const CHUNKING_SCENE: Scene :=
    Scene(3, Chunking, PipelineRows(OCR_DONE, METADATA_DONE, Blank(Queued), Blank(Pending)), map[], 4)
  const CALL_SCENE: Scene :=
    Scene(4, ExternalCall, PipelineRows(OCR_DONE, METADATA_DONE, CHUNKING_DONE, Blank(Queued)), map[], 5)

  lemma PipelineStartsWithOcr()
    ensures EntryNodes(PIPELINE) == [Ocr]
  {}

  lemma FirstRows(c: Config)
    requires Shipped(c)
    ensures Initial(c).rows == OCR_SCENE.rows && EntryNodes(c.graph) == [Ocr]
  {
    PipelineStartsWithOcr();
  }

  lemma AfterOcr(rows: Rows)
    requires rows == PipelineRows(OCR_DONE, Blank(Pending), Blank(Pending), Blank(Pending))
    ensures ReadySuccessors(PIPELINE, DoneSet(rows)) == [Metadata, Chunking]
  {
    assert DoneSet(rows) == {Ocr};
  }

  lemma AfterMetadata(rows: Rows)
    requires rows == PipelineRows(OCR_DONE, METADATA_DONE, Blank(Queued), Blank(Pending))
    ensures ReadySuccessors(PIPELINE, DoneSet(rows)) == [Chunking]
  {
    assert DoneSet(rows) == {Ocr, Metadata};
  }

  lemma AfterChunking(rows: Rows)
    requires rows == PipelineRows(OCR_DONE, METADATA_DONE, CHUNKING_DONE, Blank(Pending))
    ensures ReadySuccessors(PIPELINE, DoneSet(rows)) == [ExternalCall]
  {
    assert DoneSet(rows) == {Ocr, Metadata, Chunking};
  }

  lemma StartsCalm(c: Config)
    requires ValidConfig(c)
    ensures Built(c, Run([Initial(c)], []), true)
  {
    StartsRun(c);
  }

  /** The creator publishes ocr and is done. */
  lemma Created(c: Config)
    requires Shipped(c)
    ensures CanStage(c, true, OCR_SCENE, 0, Waiting)
  {
    PipelineConfigIsValid(c.maxAttempts);
    FirstRows(c);
    hide OnRun, IsEffect, ValidConfig, Initial, EntryNodes, Calm, PipelineRows;
    StartsCalm(c);
    InitialIs(c);
    CreatorIsAlone(c);
    PublishFirst(c, Run([Initial(c)], []));
  }

  lemma CreatorIsAlone(c: Config)
    ensures Initial(c).procs == map[0 := Creator(EntryNodes(c.graph))]
  {}

  lemma PublishFirst(c: Config, r: Run)
    requires Built(c, r, true) && Last(r).procs == map[0 := Creator([Ocr])] && Last(r).nextId == 1
    requires Last(r).doc == Processing && Last(r).rows == OCR_SCENE.rows
    ensures CanStage(c, true, OCR_SCENE, 0, Waiting)
  {
    hide OnRun, IsEffect, Calm;
    EntryLeads(c, Last(r), [Ocr]);
    assert [Ocr][1..] == [];
    var e := Become(Creator([])).(spawn := Some(NewMessage(Ocr)));
    assert OneDecides(Apply(Last(r), 0, e));
    var r1 := StepOn(c, true, r, PublishEntry(0), 0, e);
    EntryLeads(c, Last(r1), []);
    assert OneDecides(Apply(Last(r1), 0, VANISH));
    var r2 := StepOn(c, true, r1, EndCreate(0), 0, VANISH);
    assert Last(r2).procs == map[][1 := NewMessage(Ocr)];
    assert Staged(r2, OCR_SCENE, 0, Waiting);
  }

  /** A handler runs its step, saves, triggers, recomputes and acknowledges. */
  lemma Complete(c: Config, calm: bool, v: Scene, output: Output, ready: seq<StepName>)
    requires Shipped(c) && CanStage(c, calm, v, 0, Waiting) && v.step in v.rows && v.rows[v.step].status == Queued
    requires Produces(v.step, output) && !output.JobHandle?
    requires var w := Worked(Began(v), output);
      && ready == ReadySuccessors(c.graph, DoneSet(w.rows)) && (forall n :: n in ready ==> n in w.rows)
      && DeriveDocumentStatus(Onward(w, ready).rows) == Processing
    ensures var w := Onward(Worked(Began(v), output), ready); CanRest(c, calm, w.rows, w.others, w.id)
  {
    PipelineInputsAreAncestors();
    hide Built, Staged, Produces, ReadySuccessors, DeriveDocumentStatus, Onward, InputsAreAncestors, CanRest;
    Begin(c, calm, v);
    var r :| Built(c, r, calm) && Staged(r, Began(v), 0, Executing(Began(v).rows, Processing));
    Work(c, calm, r, Began(v), output);
    Trigger(c, calm, Worked(Began(v), output));
    Recompute(c, calm, Onward(Worked(Began(v), output), ready));
    AckOn(c, calm, Onward(Worked(Began(v), output), ready), 0);
  }

  lemma OnwardOne(v: Scene, n: StepName)
    requires n in v.rows
    ensures Onward(v, [n]) == if v.rows[n].status == Pending then Publishes(QueuesUp(v, n), n) else v
  {
    assert [n][1..] == [];
  }

  lemma OnwardTwo(v: Scene, m: StepName, n: StepName)
    requires m != n && m in v.rows && n in v.rows && v.rows[m].status == Pending && v.rows[n].status == Pending
    ensures Onward(v, [m, n]) == Publishes(QueuesUp(Publishes(QueuesUp(v, m), m), n), n)
  {
    assert [m, n][1..] == [n];
    OnwardOne(Publishes(QueuesUp(v, m), m), n);
  }

  /** Resting with `n`'s message alone is the scene in which its handler may begin. */
  lemma RestIsScene(c: Config, calm: bool, v: Scene, procs: map<nat, Proc>)
    requires CanRest(c, calm, v.rows, procs, v.id) && procs == v.others[v.p := NewMessage(v.step)]
    requires v.step in v.rows && v.p < v.id
    requires forall q :: q in v.others ==> q != v.p && q < v.id && v.others[q].Delivery?
    ensures CanStage(c, calm, v, 0, Waiting)
  {
    hide Built;
    var r :| Built(c, r, calm) && Rests(r, v.rows, procs, v.id);
    assert Staged(r, v, 0, Waiting);
  }

  lemma CompleteOcr(c: Config, calm: bool)
    requires Shipped(c) && CanStage(c, calm, OCR_SCENE, 0, Waiting)
    ensures CanStage(c, calm, METADATA_SCENE, 0, Waiting)
  {
    hide CanStage, CanRest, ReadySuccessors, Onward;
    var w := Worked(Began(OCR_SCENE), Text(""));
    assert w.rows == PipelineRows(OCR_DONE, Blank(Pending), Blank(Pending), Blank(Pending));
    AfterOcr(w.rows);
    OnwardTwo(w, Metadata, Chunking);
    Complete(c, calm, OCR_SCENE, Text(""), [Metadata, Chunking]);
    var rest := Onward(w, [Metadata, Chunking]);
    assert rest.rows == METADATA_SCENE.rows;
    assert rest.others == METADATA_SCENE.others[2 := NewMessage(Metadata)];
    RestIsScene(c, calm, METADATA_SCENE, rest.others);
  }

  lemma CompleteMetadata(c: Config, calm: bool)
    requires Shipped(c) && CanStage(c, calm, METADATA_SCENE, 0, Waiting)
    ensures CanStage(c, calm, CHUNKING_SCENE, 0, Waiting)
  {
    hide CanStage, CanRest, ReadySuccessors, Onward;
    var w := Worked(Began(METADATA_SCENE), Dict(""));
    assert w.rows == PipelineRows(OCR_DONE, METADATA_DONE, Blank(Queued), Blank(Pending));
    AfterMetadata(w.rows);
    OnwardOne(w, Chunking);
    Complete(c, calm, METADATA_SCENE, Dict(""), [Chunking]);
    RestIsScene(c, calm, CHUNKING_SCENE, w.others);
  }

  lemma CompleteChunking(c: Config, calm: bool)
    requires Shipped(c) && CanStage(c, calm, CHUNKING_SCENE, 0, Waiting)
    ensures CanStage(c, calm, CALL_SCENE, 0, Waiting)
  {
    hide CanStage, CanRest, ReadySuccessors, Onward;
    var w := Worked(Began(CHUNKING_SCENE), Chunks([]));
    assert w.rows == PipelineRows(OCR_DONE, METADATA_DONE, CHUNKING_DONE, Blank(Pending));
    AfterChunking(w.rows);
    OnwardOne(w, ExternalCall);
    Complete(c, calm, CHUNKING_SCENE, Chunks([]), [ExternalCall]);
    var rest := Onward(w, [ExternalCall]);
    assert rest.rows == CALL_SCENE.rows;
    RestIsScene(c, calm, CALL_SCENE, rest.others);
  }

  function Submitted(job: JobId): Rows {
    PipelineRows(OCR_DONE, METADATA_DONE, CHUNKING_DONE, Row(AwaitingCallback, 0, None, Some(job)))
  }

  /** external_call gets a job id and saves it. */
  lemma Submit(c: Config, calm: bool)
    requires Shipped(c) && CanStage(c, calm, CALL_SCENE, 0, Waiting)
    ensures exists job :: CanRest(c, calm, Submitted(job), map[], 5)
  {
    PipelineInputsAreAncestors();
    hide Built, InputsAreAncestors, Staged, CanRest;
    var v := Began(CALL_SCENE);
    Begin(c, calm, CALL_SCENE);
    var r :| Built(c, r, calm) && Staged(r, v, 0, Executing(v.rows, Processing));
    StagedStands(r, v, 0, Executing(v.rows, Processing));
    var job := NewJobId(Last(r).hist.issued);
    Work(c, calm, r, v, JobHandle(job));
    AckOn(c, calm, Worked(v, JobHandle(job)), 0);
    assert Worked(v, JobHandle(job)).rows == Submitted(job);
  }

  /** All handlers have done their part, and external_call waits for the partner. */
  lemma WaitsForPartner(c: Config)
    requires Shipped(c)
    ensures exists job :: CanRest(c, true, Submitted(job), map[], 5)
  {
    hide CanStage, CanRest, Shipped;
    Created(c);
    CompleteOcr(c, true);
    CompleteMetadata(c, true);
    CompleteChunking(c, true);
    Submit(c, true);
  }

  // ---- the webhook ----

  function Answered(job: JobId): Rows {
    PipelineRows(OCR_DONE, METADATA_DONE, CHUNKING_DONE, Row(Done, 0, Some(Dict("")), Some(job)))
  }

  /** Only the webhook is there, and the rows are `rows`. */
  ghost predicate Hooked(r: Run, job: JobId, stage: HookStage, rows: Rows) {
    && r.states != [] && Last(r).procs == map[5 := Webhook(Hook(job, true, ""), stage)]
    && Last(r).rows == rows && Last(r).doc == Processing && ExternalCall in rows
  }

  ghost predicate CanHook(c: Config, job: JobId, stage: HookStage, rows: Rows) {
    exists r :: Built(c, r, true) && Hooked(r, job, stage, rows)
  }

  lemma HookMoves(c: Config, r: Run, a: Action, e: Effect, job: JobId, stage: HookStage, rows: Rows, stage': HookStage)
    requires Built(c, r, true) && Hooked(r, job, stage, rows) && IsEffect(c, Last(r), a, 5, e) && Gentle(a)
    requires e.self == Some(Webhook(Hook(job, true, ""), stage')) && e.spawn == None && e.doc == None
    requires ExternalCall in Rewrite(rows, e.write)
    ensures CanHook(c, job, stage', Rewrite(rows, e.write))
  {
    hide OnRun, IsEffect, Calm;
    assert OneDecides(Apply(Last(r), 5, e));
    var r' := StepOn(c, true, r, a, 5, e);
    assert Hooked(r', job, stage', Rewrite(rows, e.write));
  }

  lemma Arrive(c: Config, job: JobId)
    requires CanRest(c, true, Submitted(job), map[], 5)
    ensures CanHook(c, job, Recorded, Submitted(job))
  {
    hide OnRun, IsEffect, Calm;
    var r :| Built(c, r, true) && Rests(r, Submitted(job), map[], 5);
    var hook := Hook(job, true, "");
    WebhookLeads(c, Last(r), hook);
    var e := VANISH.(spawn := Some(Webhook(hook, Recorded)), hook := Some(hook));
    assert OneDecides(Apply(Last(r), 5, e));
    var r' := StepOn(c, true, r, ReceiveWebhook(hook), 5, e);
    assert Hooked(r', job, Recorded, Submitted(job));
  }

  lemma FindJob(c: Config, job: JobId)
    requires CanHook(c, job, Recorded, Submitted(job))
    ensures CanHook(c, job, Deciding(Submitted(job)[ExternalCall]), Submitted(job))
  {
    hide OnRun, IsEffect, Calm;
    var r :| Built(c, r, true) && Hooked(r, job, Recorded, Submitted(job));
    var row := Submitted(job)[ExternalCall];
    LookupJobLeads(c, Last(r), 5, Hook(job, true, ""));
    HookMoves(c, r, Action.LookupJob(5), LookupJobEffect(row, Last(r).procs[5]), job, Recorded, Submitted(job),
              Deciding(row));
  }

  lemma Settle(c: Config, job: JobId)
    requires CanHook(c, job, Deciding(Submitted(job)[ExternalCall]), Submitted(job))
    ensures CanHook(c, job, HookRecomputing(ReadStatuses), Answered(job))
  {
    hide OnRun, IsEffect, Calm;
    var row := Submitted(job)[ExternalCall];
    var r :| Built(c, r, true) && Hooked(r, job, Deciding(row), Submitted(job));
    SettleLeads(c, Last(r), 5, Hook(job, true, ""), row);
    var e := SettleCallbackEffect(row, Last(r).procs[5]);
    assert Rewrite(Submitted(job), e.write) == Answered(job);
    HookMoves(c, r, SettleCallback(5), e, job, Deciding(row), Submitted(job), HookRecomputing(ReadStatuses));
  }

  /** The partner's webhook arrives, finds its job and commits DONE; its recomputation is still to come. */
  lemma PartnerAnswers(c: Config)
    requires Shipped(c)
    ensures exists job :: CanHook(c, job, HookRecomputing(ReadStatuses), Answered(job))
  {
    WaitsForPartner(c);
    hide CanHook, CanRest;
    var job :| CanRest(c, true, Submitted(job), map[], 5);
    Arrive(c, job);
    FindJob(c, job);
    Settle(c, job);
  }

  /** The recomputation of the webhook. */
  lemma Derive(c: Config, job: JobId)
    requires CanHook(c, job, HookRecomputing(ReadStatuses), Answered(job))
    ensures CanHook(c, job, HookRecomputing(WriteDocument(Ready, Processing)), Answered(job))
  {
    hide OnRun, Calm, IsEffect;
    assert DeriveDocumentStatus(Answered(job)) == Ready;
    var r :| Built(c, r, true) && Hooked(r, job, HookRecomputing(ReadStatuses), Answered(job));
    ReadStatusesLeads(c, Last(r), 5, Last(r).procs[5]);
    HookMoves(c, r, RecomputeStep(5), RecomputeEffect(Last(r).rows, Processing, Last(r).procs[5]), job,
              HookRecomputing(ReadStatuses), Answered(job), HookRecomputing(ReadDocument(Ready)));
    var r1 :| Built(c, r1, true) && Hooked(r1, job, HookRecomputing(ReadDocument(Ready)), Answered(job));
    ReadDocumentLeads(c, Last(r1), 5, Last(r1).procs[5], Ready);
    HookMoves(c, r1, RecomputeStep(5), RecomputeEffect(Last(r1).rows, Processing, Last(r1).procs[5]), job,
              HookRecomputing(ReadDocument(Ready)), Answered(job), HookRecomputing(WriteDocument(Ready, Processing)));
  }

  ghost predicate CanFinish(c: Config) {
    exists r :: Built(c, r, true) && Last(r).procs == map[] && Last(r).doc == Ready
  }

  lemma Conclude(c: Config, job: JobId)
    requires CanHook(c, job, HookRecomputing(ReadStatuses), Answered(job))
    ensures CanFinish(c)
  {
    hide OnRun, Calm, IsEffect;
    Derive(c, job);
    var r :| Built(c, r, true) && Hooked(r, job, HookRecomputing(WriteDocument(Ready, Processing)), Answered(job));
    var x := Last(r).procs[5];
    WriteDocumentLeads(c, Last(r), 5, x, Ready, Processing);
    var e := RecomputeEffect(Last(r).rows, Processing, x);
    assert Apply(Last(r), 5, e).procs == map[];
    assert OneDecides(Apply(Last(r), 5, e));
    var r' := StepOn(c, true, r, RecomputeStep(5), 5, e);
  }

  /** The hypotheses of the theorems about runs can all be met at once, up to the end: some run of the shipped
      pipeline, without overlap, crashes, losses and scans, takes its document to READY and leaves no process. */
  lemma PipelineCanFinish(maxAttempts: nat) returns (r: Run)
    requires maxAttempts >= 1
    ensures var c := Config(PIPELINE, maxAttempts);
      && ValidConfig(c) && IsRun(c, r) && NoOverlapEver(r) && CrashFree(r) && ReaperFree(r)
      && r.states != [] && Last(r).procs == map[] && Last(r).doc == Ready
  {
    var c := Config(PIPELINE, maxAttempts);
    hide NoOverlapEver, CanHook;
    PartnerAnswers(c);
    var job :| CanHook(c, job, HookRecomputing(ReadStatuses), Answered(job));
    Conclude(c, job);
    r :| Built(c, r, true) && Last(r).procs == map[] && Last(r).doc == Ready;
    NoOverlapHolds(c, r);
  }
}

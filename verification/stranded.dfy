/** Why the result that nothing is stranded assumes that no work is lost: a step that is DONE is acknowledged
    without triggering its successors, a replayed webhook is answered without recomputing the document, the
    reaper never looks at PENDING or DONE rows, and it leaves RUNNING rows to a redelivery that does not come
    when their message was acknowledged. */
module Stranding {
  import opened Model
  import opened Dag
  import opened Rules
  import opened Protocol
  import opened Claims
  import opened Progress
  import opened Bounds
  import opened Discharges
  import opened Stores
  import opened Handlers
  import opened Walks

  // ---- a state in which nothing ever happens again ----

  /** Nobody is at work, every row has ended, is PENDING, or is RUNNING with attempts left, and no webhook can
      find a job to decide. */
  ghost predicate Stranded(c: Config, s: State) {
    && (forall n :: n in s.rows ==> Settles(c, s.rows[n]))
    && ExternalCall in s.rows
    && (s.rows[ExternalCall].externalJobId == None || s.rows[ExternalCall].status in {Done, Error})
    && s.doc == Processing
    && (forall p :: p in s.procs ==> Idle(c, s.procs[p]))
  }

  predicate Settles(c: Config, row: Row) {
    row.status in {Pending, Done, Error} || LeftAlone(c, row)
  }

  /** The reaper leaves such a row to a redelivery. */
  predicate LeftAlone(c: Config, row: Row) {
    row.status == Running && row.attempts < c.maxAttempts
  }

  predicate Idle(c: Config, x: Proc) {
    match x
    case Webhook(_, stage) => stage.Recorded?
    case Reaper(phase, selected, recomputing) =>
      && recomputing == None
      && (forall sel :: sel in selected ==> phase == InFlight && LeftAlone(c, sel.row))
    case _ => false
  }

  lemma NothingToPick(rows: Rows, picked: seq<StepName>, statuses: set<StepStatus>)
    requires CanPick(rows, picked, statuses) && forall n :: n in rows ==> rows[n].status !in statuses
    ensures picked == []
  {
    FirstOrNone(picked);
  }

  lemma FirstOrNone(picked: seq<StepName>)
    ensures picked == [] || exists n :: n in picked
  {
    if picked != [] {
      assert picked[0] in picked;
    }
  }

  lemma OnlyRunningPicked(c: Config, s: State, picked: seq<StepName>)
    requires Stranded(c, s) && CanPick(s.rows, picked, {Queued, Running})
    ensures Idle(c, Reaper(InFlight, Selection(s.rows, picked), None))
  {
    forall sel | sel in Selection(s.rows, picked) ensures LeftAlone(c, sel.row) {
      var i :| 0 <= i < |picked| && sel == Selected(picked[i], s.rows[picked[i]]);
      assert picked[i] in picked;
      assert Settles(c, s.rows[picked[i]]);
    }
  }

  lemma ReaperPassesBy(c: Config, s: State, p: nat)
    requires Stranded(c, s) && Enabled(c, s, ReapNext(p))
    ensures StaysQuiet(c, Act(c, s, ReapNext(p)))
  {
    var x := s.procs[p];
    assert Idle(c, x);
    assert x.selected[0] in x.selected;
  }

  /** No webhook and no reaper scan gets a stranded document moving. */
  lemma StrandedStays(c: Config, s: State, a: Action, s': State)
    requires Stranded(c, s) && Next(c, s, a, s')
    ensures Stranded(c, s') && s'.rows == s.rows
  {
    IdlersStayIdle(c, s, a);
    hide Enabled, Act, Idle, Settles;
    QuietEffect(c, s, Subject(s, a), Act(c, s, a));
  }

  /** An effect that changes no row and leaves nobody at work. */
  ghost predicate StaysQuiet(c: Config, e: Effect) {
    && e.write == NoWrite && e.doc == None
    && (e.self.Some? ==> Idle(c, e.self.value)) && (e.spawn.Some? ==> Idle(c, e.spawn.value))
  }

  lemma QuietEffect(c: Config, s: State, p: nat, e: Effect)
    requires Stranded(c, s) && StaysQuiet(c, e)
    ensures Stranded(c, Apply(s, p, e)) && Apply(s, p, e).rows == s.rows
  {
    hide Idle, Settles;
  }

  lemma IdlersStayIdle(c: Config, s: State, a: Action)
    requires Stranded(c, s) && Enabled(c, s, a)
    ensures StaysQuiet(c, Act(c, s, a))
  {
    hide Stranded, Enabled, Act, StaysQuiet;
    if a.ScanInFlight? || a.ScanCallbacks? {
      ScansAreIdle(c, s, a);
    } else if a.ReapNext? {
      ReaperPassesBy(c, s, a.p);
    } else {
      OthersAreIdle(c, s, a);
    }
  }

  lemma ScansAreIdle(c: Config, s: State, a: Action)
    requires Stranded(c, s) && Enabled(c, s, a) && (a.ScanInFlight? || a.ScanCallbacks?)
    ensures StaysQuiet(c, Act(c, s, a))
  {
    if a.ScanInFlight? {
      OnlyRunningPicked(c, s, a.picked);
    } else {
      NothingToPick(s.rows, a.picked, {AwaitingCallback});
    }
  }

  lemma OthersAreIdle(c: Config, s: State, a: Action)
    requires Stranded(c, s) && Enabled(c, s, a) && !a.ScanInFlight? && !a.ScanCallbacks? && !a.ReapNext?
    ensures StaysQuiet(c, Act(c, s, a))
  {
    if Subject(s, a) in s.procs {
      assert Idle(c, s.procs[Subject(s, a)]);
    }
  }

  lemma StrandedForGood(c: Config, r: Run, i: nat, j: nat)
    requires IsRun(c, r) && i <= j < |r.states| && Stranded(c, r.states[i])
    ensures Stranded(c, r.states[j]) && r.states[j].rows == r.states[i].rows
  {
    var rows := r.states[i].rows;
    var P := (s: State) => Stranded(c, s) && s.rows == rows;
    forall k {:trigger Keeps(r, P, k)} | i <= k < |r.states| - 1 ensures Keeps(r, P, k) {
      if P(r.states[k]) {
        StepOf(c, r, k);
        StrandedStays(c, r.states[k], r.actions[k], r.states[k+1]);
      }
    }
    Induct(r, P, i, j);
  }

  // ---- how runs of the shipped pipeline get there ----

  ghost predicate Deserted(c: Config, r: Run) {
    IsRun(c, r) && r.states != [] && Last(r).procs == map[] && Stranded(c, Last(r))
  }

  lemma IsDeserted(c: Config, r: Run, ocr: Row)
    requires IsRun(c, r) && r.states != [] && Last(r).procs == map[] && Last(r).doc == Processing
    requires Last(r).rows == PipelineRows(ocr, Blank(Pending), Blank(Pending), Blank(Pending)) && Settles(c, ocr)
    ensures Deserted(c, r)
  {
    hide IsRun;
  }

  /** The first handler has committed DONE. */
  const OCR_SAVED: Scene :=
    OCR_SCENE.(rows := PipelineRows(OCR_DONE, Blank(Pending), Blank(Pending), Blank(Pending)))

  lemma OcrDone(c: Config)
    requires Shipped(c)
    ensures CanStage(c, false, OCR_SAVED, 0, Triggering(Processing))
  {
    PipelineInputsAreAncestors();
    hide OnRun, Calm, Staged, InputsAreAncestors;
    Created(c);
    var r :| Built(c, r, true) && Staged(r, OCR_SCENE, 0, Waiting);
    assert Built(c, r, false);
    Begin(c, false, OCR_SCENE);
    OcrSaves(c);
  }

  lemma OcrSaves(c: Config)
    requires CanStage(c, false, Began(OCR_SCENE), 0, Executing(Began(OCR_SCENE).rows, Processing))
    requires InputsAreAncestors(c.graph)
    ensures CanStage(c, false, OCR_SAVED, 0, Triggering(Processing))
  {
    hide Built, Staged, InputsAreAncestors;
    var v := Began(OCR_SCENE);
    var r :| Built(c, r, false) && Staged(r, v, 0, Executing(v.rows, Processing));
    StagedStands(r, v, 0, Executing(v.rows, Processing));
    Work(c, false, r, v, Text(""));
    assert Worked(v, Text("")).rows == OCR_SAVED.rows;
  }

  lemma CrashIs(c: Config, s: State, p: nat, x: Proc)
    requires ActsAs(s, p, x) && x.Delivery? && !x.stage.Waiting? && !x.stage.Saving?
    ensures IsEffect(c, s, Crash(p), p, Become(Delivery(x.step, x.returned + 1, Waiting)))
  {}

  /** The worker dies before it triggers the successors. */
  lemma Dies(c: Config, v: Scene)
    requires CanStage(c, false, v, 0, Triggering(Processing))
    ensures CanStage(c, false, v, 1, Waiting)
  {
    hide Built, IsEffect, Staged;
    var r :| Built(c, r, false) && Staged(r, v, 0, Triggering(Processing));
    StagedStands(r, v, 0, Triggering(Processing));
    CrashIs(c, Last(r), v.p, Last(r).procs[v.p]);
    Move(c, false, r, Crash(v.p), Become(Delivery(v.step, 1, Waiting)), v, 0, Triggering(Processing), 1, Waiting);
  }

  /** The redelivered message of a DONE step is acknowledged. */
  lemma IsAcked(c: Config, v: Scene)
    requires CanStage(c, false, v, 1, Waiting) && v.step in v.rows && v.rows[v.step].status == Done
    ensures CanRest(c, false, v.rows, v.others, v.id)
  {
    hide Built, IsEffect, Staged, CanRest;
    var r :| Built(c, r, false) && Staged(r, v, 1, Waiting);
    StagedStands(r, v, 1, Waiting);
    DeliverLeads(c, Last(r), v.p, v.step);
    Move(c, false, r, Deliver(v.p), DeliverEffect(v.rows, Last(r).procs[v.p]), v, 1, Waiting, 1, Acking);
    AckOn(c, false, v, 1);
  }

  /** One crash between the DONE commit and the trigger strands the document: there is a run of the shipped
      pipeline that ends with no message and no handler, the document PROCESSING and a step DONE, and from
      there on no run ever moves a row or the document. */
  lemma CrashCanStrand(maxAttempts: nat) returns (r: Run)
    requires maxAttempts >= 1
    ensures Deserted(Config(PIPELINE, maxAttempts), r)
    ensures Ocr in Last(r).rows && Last(r).rows[Ocr].status == Done
  {
    var c := Config(PIPELINE, maxAttempts);
    hide CanStage, ValidConfig, IsRun, Calm, Deserted;
    OcrDone(c);
    Dies(c, OCR_SAVED);
    IsAcked(c, OCR_SAVED);
    r :| Built(c, r, false) && Rests(r, OCR_SAVED.rows, map[], 2);
    IsDeserted(c, r, OCR_DONE);
  }

  lemma LossIs(c: Config, s: State, a: Action, p: nat)
    requires p in s.procs && (a == Drop(p) || a == Crash(p))
    requires a == Drop(p) ==> s.procs[p].Delivery? && s.procs[p].stage.Executing? && s.procs[p].step in s.rows
    requires a == Crash(p) ==> s.procs[p].Webhook?
    ensures IsEffect(c, s, a, p, VANISH)
  {}

  /** The same without any crash. The handler raises while it executes, cleaning up its session raises too, and
      the message is taken for an unparseable one: the step stays RUNNING, with no message for it, and nothing
      will ever run it again. */
  lemma DropCanStrand(maxAttempts: nat) returns (r: Run)
    requires maxAttempts >= 1
    ensures Deserted(Config(PIPELINE, maxAttempts), r)
    ensures Ocr in Last(r).rows && Last(r).rows[Ocr].status == Running
    ensures forall i :: 0 <= i < |r.actions| ==> !r.actions[i].Crash?
  {
    var c := Config(PIPELINE, maxAttempts);
    hide Built, Staged, Deserted, IsRun;
    Created(c);
    Begin(c, true, OCR_SCENE);
    var v := Began(OCR_SCENE);
    var r0 :| Built(c, r0, true) && Staged(r0, v, 0, Executing(v.rows, Processing));
    r := DropsLast(c, r0, v);
    assert v.rows == PipelineRows(Blank(Running), Blank(Pending), Blank(Pending), Blank(Pending));
    IsDeserted(c, r, Blank(Running));
  }

  lemma DropsLast(c: Config, r: Run, v: Scene) returns (r': Run)
    requires Built(c, r, true) && Staged(r, v, 0, Executing(v.rows, Processing)) && v.others == map[]
    ensures IsRun(c, r') && Rests(r', v.rows, map[], v.id)
    ensures forall i :: 0 <= i < |r'.actions| ==> !r'.actions[i].Crash?
  {
    hide ValidConfig, IsRun, Enabled, Act, Prolongs, ReaperFree, NoRedelivery, OneDecidesEver;
    LossIs(c, Last(r), Drop(v.p), v.p);
    ExtendFacts(c, r, Drop(v.p), v.p, VANISH);
    r' := Extend(c, r, Drop(v.p));
    assert map[v.p := Delivery(v.step, 0, Executing(v.rows, Processing))] - {v.p} == map[];
  }

  /** And with all the work done: when a webhook dies between its commit and its recomputation, every step is
      DONE, and the document stays PROCESSING. */
  lemma LostWebhookCanStrand(maxAttempts: nat) returns (r: Run)
    requires maxAttempts >= 1
    ensures Deserted(Config(PIPELINE, maxAttempts), r)
    ensures forall n :: n in Last(r).rows ==> Last(r).rows[n].status == Done
  {
    var c := Config(PIPELINE, maxAttempts);
    hide CanHook, Deserted, Answered;
    PartnerAnswers(c);
    var job :| CanHook(c, job, HookRecomputing(ReadStatuses), Answered(job));
    r := HookDies(c, job);
    AllIsDone(c, r, job);
  }

  lemma HookDies(c: Config, job: JobId) returns (r: Run)
    requires CanHook(c, job, HookRecomputing(ReadStatuses), Answered(job))
    ensures IsRun(c, r) && Rests(r, Answered(job), map[], Last(r).nextId)
  {
    hide ValidConfig, IsEffect, Calm, IsRun, Answered;
    var r0 :| Built(c, r0, true) && Hooked(r0, job, HookRecomputing(ReadStatuses), Answered(job));
    LossIs(c, Last(r0), Crash(5), 5);
    r := TakeStep(c, r0, Crash(5), 5, VANISH);
    assert map[5 := Webhook(Hook(job, true, ""), HookRecomputing(ReadStatuses))] - {5} == map[];
  }

  lemma AllIsDone(c: Config, r: Run, job: JobId)
    requires IsRun(c, r) && Rests(r, Answered(job), map[], Last(r).nextId)
    ensures Deserted(c, r) && forall n :: n in Last(r).rows ==> Last(r).rows[n].status == Done
  {
    hide IsRun;
  }
}

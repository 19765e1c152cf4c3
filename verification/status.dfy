/** The stored document status in runs without overlapping writers. */
module Status {
  import opened Model
  import opened Dag
  import opened Rules
  import opened Protocol
  import opened Claims
  import opened NoOverlaps

  /** Once external_call is DONE, every step is: each of them is an ancestor of the one terminal node. */
  lemma CallDoneMeansAllDone(c: Config, s: State)
    requires ValidConfig(c) && Known(c, s) && CallDone(s.rows)
    ensures forall n :: n in s.rows ==> s.rows[n].status == Done
    ensures !AnyError(s.rows)
  {
    forall n | n in s.rows ensures s.rows[n].status == Done {
      CallDoneMeansDone(c, s, n);
    }
  }

  lemma CallDoneMeansDone(c: Config, s: State, n: StepName)
    requires ValidConfig(c) && Known(c, s) && CallDone(s.rows) && n in s.rows
    ensures s.rows[n].status == Done
  {
    assert n in c.graph.nodes;
    EveryNodeReachesTheSink(c.graph, ExternalCall, n);
    ReachesCallIsDone(c.graph, s.rows, s.hist.everDone, n);
    assert RowSettled(c, s.hist, s.hooks, n, s.rows[n]);
  }

  lemma ReachesCallIsDone(g: Graph, rows: Rows, everDone: set<StepName>, n: StepName)
    requires RowsOk(g, rows, everDone) && CallDone(rows) && Reaches(g, n, ExternalCall)
    ensures n in everDone
  {
    var w :| |w| >= 1 && IsWalk(g, w) && w[0] == n && w[|w|-1] == ExternalCall;
    if |w| > 1 {
      WalkWasDone(g, rows, everDone, w, 0);
    } else {
      assert RowOk(g, rows, everDone, ExternalCall);
    }
  }

  // ---- the invariant ----

  /** A status is not ahead of the rows it summarises. */
  ghost predicate NotAhead(rows: Rows, d: DocumentStatus) {
    && (d == Ready ==> CallDone(rows))
    && (d == Failed ==> AnyError(rows))
  }

  /** The Document object of a handler's session. */
  function SeenBy(x: Proc): Option<DocumentStatus> {
    match x
    case Delivery(_, _, Checked(_, seen)) => Some(seen)
    case Delivery(_, _, Executing(_, seen)) => Some(seen)
    case Delivery(_, _, Saving(_, seen, _)) => Some(seen)
    case Delivery(_, _, Failing(_, seen)) => Some(seen)
    case Delivery(_, _, Triggering(seen)) => Some(seen)
    case Delivery(_, _, Claiming(seen, _)) => Some(seen)
    case Delivery(_, _, Publishing(seen, _, _)) => Some(seen)
    case Delivery(_, _, Recomputing(seen, _)) => Some(seen)
    case _ => None
  }

  ghost predicate RecomputeOk(rows: Rows, doc: DocumentStatus, x: Proc, at: Recompute) {
    match at
    case ReadStatuses => !x.Delivery? ==> CallDone(rows) || AnyError(rows)
    case ReadDocument(d) => NotAhead(rows, d) && d != Processing
    case WriteDocument(d, stored) =>
      && NotAhead(rows, d)
      && (d == Processing ==> stored == Processing)
      && (stored != Processing ==> doc == stored)
  }

  ghost predicate ProcStatus(rows: Rows, doc: DocumentStatus, x: Proc) {
    && (SeenBy(x).Some? ==> SeenBy(x).value == Processing)
    && (RecomputeOf(x).Some? ==> RecomputeOk(rows, doc, x, RecomputeOf(x).value))
  }

  ghost predicate StatusInv(s: State) {
    && NotAhead(s.rows, s.doc)
    && (forall p :: p in s.procs ==> ProcStatus(s.rows, s.doc, s.procs[p]))
  }

  /** DONE, ERROR and the document's outcome stay. */
  ghost predicate OutcomeStays(rows: Rows, doc: DocumentStatus, rows': Rows, doc': DocumentStatus) {
    && (CallDone(rows) ==> CallDone(rows'))
    && (AnyError(rows) ==> AnyError(rows'))
    && (doc != Processing ==> doc' == doc)
  }

  lemma ProcStatusStays(rows: Rows, doc: DocumentStatus, rows': Rows, doc': DocumentStatus, x: Proc)
    requires ProcStatus(rows, doc, x) && OutcomeStays(rows, doc, rows', doc')
    ensures ProcStatus(rows', doc', x)
  {}

  ghost predicate StatusEffect(s: State, e: Effect) {
    var rows' := Rewrite(s.rows, e.write);
    var doc' := if e.doc.Some? then e.doc.value else s.doc;
    && NotAhead(rows', doc')
    && (s.doc != Processing ==> doc' == s.doc)
    && (e.self.Some? ==> ProcStatus(rows', doc', e.self.value))
    && (e.spawn.Some? ==> SeenBy(e.spawn.value) == None && RecomputeOf(e.spawn.value) == None)
  }

  lemma RowsAdvanceOutcome(rows: Rows, rows': Rows)
    requires RowsAdvance(rows, rows')
    ensures CallDone(rows) ==> CallDone(rows')
    ensures AnyError(rows) ==> AnyError(rows')
  {
    if AnyError(rows) {
      var n :| n in rows && rows[n].status == Error;
      assert RowAdvances(rows[n], rows'[n]);
    }
  }

  lemma ApplyKeepsStatus(s: State, p: nat, e: Effect)
    requires StatusInv(s) && StatusEffect(s, e)
    requires RowsAdvance(s.rows, Rewrite(s.rows, e.write))
    ensures StatusInv(Apply(s, p, e))
    ensures s.doc != Processing ==> Apply(s, p, e).doc == s.doc
  {
    var s' := Apply(s, p, e);
    RowsAdvanceOutcome(s.rows, s'.rows);
    forall q | q in s'.procs ensures ProcStatus(s'.rows, s'.doc, s'.procs[q]) {
      if q in s.procs && s'.procs[q] == s.procs[q] {
        ProcStatusStays(s.rows, s.doc, s'.rows, s'.doc, s.procs[q]);
      }
    }
  }

  // ---- each action ----

  lemma LoadDocumentStatus(c: Config, s: State, a: Action)
    requires ValidConfig(c) && Known(c, s) && StatusInv(s) && Enabled(c, s, a) && a.LoadDocument?
    ensures StatusEffect(s, Act(c, s, a))
  {
    RunnableIsNotReady(c, s, a.p);
    LoadDocumentEffectStatus(s, s.procs[a.p]);
  }

  lemma LoadDocumentEffectStatus(s: State, x: Proc)
    requires StatusInv(s) && s.doc != Ready && x.Delivery? && x.stage.Loaded?
    ensures StatusEffect(s, LoadDocumentEffect(s.doc, x))
  {}

  lemma RunnableIsNotReady(c: Config, s: State, p: nat)
    requires ValidConfig(c) && Known(c, s) && StatusInv(s) && HandlerAt(s, p) && s.procs[p].stage.Loaded?
    ensures s.doc != Ready
  {
    var x := s.procs[p];
    assert ProcFresh(s.rows, x) && ProcOk(c.graph, s.rows, s.hist.everDone, x);
    if s.doc == Ready {
      CallDoneMeansDone(c, s, x.step);
    }
  }

  lemma HandlerMoveStatus(c: Config, s: State, a: Action)
    requires StatusInv(s) && Enabled(c, s, a)
    requires a.Deliver? || a.ExecuteOk? || a.ExecuteFail? || a.ReadReady? || a.PublishClaimed? || a.EndClaims?
    ensures StatusEffect(s, Act(c, s, a))
  {
    assert ProcStatus(s.rows, s.doc, s.procs[a.p]);
  }

  lemma CommitStatus(c: Config, s: State, a: Action)
    requires StatusInv(s) && Enabled(c, s, a)
    requires a.MarkRunning? || a.Save? || a.FailAttempt? || a.ClaimNext?
    requires RowsAdvance(s.rows, Rewrite(s.rows, Act(c, s, a).write))
    ensures StatusEffect(s, Act(c, s, a))
  {
    var rows' := Rewrite(s.rows, Act(c, s, a).write);
    RowsAdvanceOutcome(s.rows, rows');
    assert ProcStatus(s.rows, s.doc, s.procs[a.p]);
  }

  lemma SettleStatus(c: Config, s: State, a: Action)
    requires Known(c, s) && StatusInv(s) && Enabled(c, s, a) && a.SettleCallback?
    requires RowsAdvance(s.rows, Rewrite(s.rows, Act(c, s, a).write))
    ensures StatusEffect(s, Act(c, s, a))
  {
    var rows' := Rewrite(s.rows, Act(c, s, a).write);
    RowsAdvanceOutcome(s.rows, rows');
    assert ProcFresh(s.rows, s.procs[a.p]);
    assert ExternalCall in rows' && rows'[ExternalCall].status in {Done, Error};
  }

  lemma ReapStatus(c: Config, s: State, a: Action)
    requires Known(c, s) && StatusInv(s) && Enabled(c, s, a) && a.ReapNext?
    requires RowsAdvance(s.rows, Rewrite(s.rows, Act(c, s, a).write))
    ensures StatusEffect(s, Act(c, s, a))
  {
    var rows' := Rewrite(s.rows, Act(c, s, a).write);
    RowsAdvanceOutcome(s.rows, rows');
    var e := Act(c, s, a);
    var x := s.procs[a.p];
    assert ProcFresh(s.rows, x) && x.selected[0] in x.selected;
    assert ProcOk(c.graph, s.rows, s.hist.everDone, x);
    assert e.write.WriteRow? ==> rows'[e.write.step].status == Error;
  }

  lemma DeriveNotAhead(rows: Rows)
    ensures NotAhead(rows, DeriveDocumentStatus(rows))
    ensures CallDone(rows) || AnyError(rows) ==> DeriveDocumentStatus(rows) != Processing
  {}

  lemma RecomputeStatus(c: Config, s: State, a: Action)
    requires ValidConfig(c) && Known(c, s) && StatusInv(s) && Enabled(c, s, a) && a.RecomputeStep?
    ensures StatusEffect(s, Act(c, s, a))
  {
    var x := s.procs[a.p];
    assert ProcStatus(s.rows, s.doc, x);
    DeriveNotAhead(s.rows);
    if CallDone(s.rows) {
      CallDoneMeansAllDone(c, s);
    }
    match RecomputeOf(x).value {
      case ReadStatuses => RecomputeReads(c, s, x);
      case ReadDocument(_) => RecomputeReads(c, s, x);
      case WriteDocument(_, _) => RecomputeWrites(s, x);
    }
  }

  lemma RecomputeReads(c: Config, s: State, x: Proc)
    requires StatusInv(s) && RecomputeOf(x).Some? && ProcStatus(s.rows, s.doc, x)
    requires !RecomputeOf(x).value.WriteDocument?
    ensures StatusEffect(s, RecomputeEffect(s.rows, s.doc, x))
  {
    DeriveNotAhead(s.rows);
    if x.Delivery? {
      assert SeenBy(x) == Some(x.stage.seen);
    }
  }

  lemma RecomputeWrites(s: State, x: Proc)
    requires StatusInv(s) && RecomputeOf(x).Some? && ProcStatus(s.rows, s.doc, x)
    requires RecomputeOf(x).value.WriteDocument?
    requires !(CallDone(s.rows) && AnyError(s.rows))
    ensures StatusEffect(s, RecomputeEffect(s.rows, s.doc, x))
  {}

  lemma EndStatus(c: Config, s: State, a: Action)
    requires StatusInv(s) && Enabled(c, s, a)
    requires a.Ack? || a.DeadLetter? || a.EndReap? || a.EndCreate? || a.Drop? || a.LookupJob?
    ensures StatusEffect(s, Act(c, s, a))
  {}

  lemma StartStatus(c: Config, s: State, a: Action)
    requires StatusInv(s) && Enabled(c, s, a)
    requires a.Nack? || a.ReceiveWebhook? || a.ScanInFlight? || a.ScanCallbacks? || a.PublishEntry?
          || a.Crash? || a.Redeliver?
    ensures StatusEffect(s, Act(c, s, a))
  {}

  lemma ActionStatus(c: Config, s: State, a: Action)
    requires ValidConfig(c) && Known(c, s) && StatusInv(s) && Enabled(c, s, a)
    requires RowsAdvance(s.rows, Rewrite(s.rows, Act(c, s, a).write))
    ensures StatusEffect(s, Act(c, s, a))
  {
    if a.MarkRunning? || a.Save? || a.FailAttempt? || a.ClaimNext? {
      CommitStatus(c, s, a);
    } else if a.SettleCallback? {
      SettleStatus(c, s, a);
    } else if a.ReapNext? {
      ReapStatus(c, s, a);
    } else {
      NoCommitStatus(c, s, a);
    }
  }

  lemma NoCommitStatus(c: Config, s: State, a: Action)
    requires ValidConfig(c) && Known(c, s) && StatusInv(s) && Enabled(c, s, a)
    requires !a.MarkRunning? && !a.Save? && !a.FailAttempt? && !a.ClaimNext? && !a.SettleCallback? && !a.ReapNext?
    ensures StatusEffect(s, Act(c, s, a))
  {
    hide ValidConfig, Known, StatusInv, Enabled, Act, StatusEffect;
    if a.LoadDocument? {
      LoadDocumentStatus(c, s, a);
    } else if a.Deliver? || a.ExecuteOk? || a.ExecuteFail? || a.ReadReady? || a.PublishClaimed? || a.EndClaims? {
      HandlerMoveStatus(c, s, a);
    } else if a.RecomputeStep? {
      RecomputeStatus(c, s, a);
    } else if a.Ack? || a.DeadLetter? || a.EndReap? || a.EndCreate? || a.Drop? || a.LookupJob? {
      EndStatus(c, s, a);
    } else {
      StartStatus(c, s, a);
    }
  }

  lemma NextKeepsStatus(c: Config, s: State, a: Action, s': State)
    requires ValidConfig(c) && Known(c, s) && StatusInv(s) && Next(c, s, a, s')
    ensures StatusInv(s')
    ensures s.doc != Processing ==> s'.doc == s.doc
  {
    NextKeepsSettled(c, s, a, s');
    ActionStatus(c, s, a);
    ApplyKeepsStatus(s, Subject(s, a), Act(c, s, a));
  }

  // ---- the partner side effect ----

  /** A job id is in the hands of the pipeline: stored, or about to be. */
  ghost predicate JobHeld(s: State) {
    || (ExternalCall in s.rows && s.rows[ExternalCall].externalJobId.Some?)
    || exists p :: p in s.procs && HoldsJob(s.procs[p])
  }

  predicate HoldsJob(x: Proc) {
    x.Delivery? && x.stage.Saving? && x.stage.output.JobHandle?
  }

  /** Every issued job id is held or was lost in a crash between the call and its commit. */
  ghost predicate JobsAccounted(s: State) {
    |s.hist.issued| == s.hist.notes[LostCall] + (if JobHeld(s) then 1 else 0)
  }

  lemma HolderIsRunning(c: Config, s: State, p: nat)
    requires Known(c, s) && p in s.procs && s.procs[p].Delivery?
    requires (s.procs[p].stage.Executing? && s.procs[p].step == ExternalCall) || HoldsJob(s.procs[p])
    ensures s.procs[p].step == ExternalCall && ExternalCall in Writes(s.procs[p])
    ensures s.rows[ExternalCall].externalJobId == None
  {
    var x := s.procs[p];
    assert ProcFresh(s.rows, x) && ProcOk(c.graph, s.rows, s.hist.everDone, x);
    assert RowSettled(c, s.hist, s.hooks, ExternalCall, s.rows[ExternalCall]);
  }

  lemma OneHolder(c: Config, s: State, p: nat)
    requires Known(c, s) && NoOverlap(s) && p in s.procs && ExternalCall in Writes(s.procs[p])
    ensures forall q :: q in s.procs && q != p ==> !HoldsJob(s.procs[q])
  {
    forall q | q in s.procs && q != p ensures !HoldsJob(s.procs[q]) {
      if HoldsJob(s.procs[q]) {
        HolderIsRunning(c, s, q);
      }
    }
  }

  lemma ExecuteAccounted(c: Config, s: State, a: Action, s': State)
    requires Known(c, s) && NoOverlap(s) && JobsAccounted(s) && Next(c, s, a, s')
    requires a.ExecuteOk? && a.output.JobHandle?
    ensures JobsAccounted(s')
  {
    HolderIsRunning(c, s, a.p);
    OneHolder(c, s, a.p);
    assert !JobHeld(s);
    assert HoldsJob(s'.procs[a.p]);
  }

  lemma SaveAccounted(c: Config, s: State, a: Action, s': State)
    requires Known(c, s) && JobsAccounted(s) && Next(c, s, a, s') && a.Save? && HoldsJob(s.procs[a.p])
    ensures JobsAccounted(s')
  {
    HolderIsRunning(c, s, a.p);
    assert ProcFresh(s.rows, s.procs[a.p]);
    assert s'.rows[ExternalCall].externalJobId.Some?;
  }

  lemma CrashAccounted(c: Config, s: State, a: Action, s': State)
    requires Known(c, s) && NoOverlap(s) && JobsAccounted(s) && Next(c, s, a, s') && (a.Crash? || a.Drop?)
        && HoldsJob(s.procs[a.p])
    ensures JobsAccounted(s')
  {
    HolderIsRunning(c, s, a.p);
    OneHolder(c, s, a.p);
    assert JobHeld(s);
    forall q | q in s'.procs ensures !HoldsJob(s'.procs[q]) {}
    assert !JobHeld(s');
  }

  lemma RedeliverAccounted(c: Config, s: State, a: Action, s': State)
    requires Inv(c, s) && JobsAccounted(s) && Next(c, s, a, s') && a.Redeliver? && HoldsJob(s.procs[a.p])
    ensures JobsAccounted(s')
  {
    assert a.p < s.nextId;
    assert HoldsJob(s'.procs[a.p]);
    assert JobHeld(s) && JobHeld(s');
  }

  lemma QuietJobs(c: Config, s: State, a: Action)
    requires Inv(c, s) && Enabled(c, s, a)
    requires !(a.ExecuteOk? && a.output.JobHandle?)
    requires a.Save? || a.Crash? || a.Drop? || a.Redeliver? ==> !HoldsJob(s.procs[a.p])
    ensures var e := Act(c, s, a);
      && e.issue == None && e.note != LostCall
      && (e.self.Some? ==> !HoldsJob(e.self.value)) && (e.spawn.Some? ==> !HoldsJob(e.spawn.value))
      && (Subject(s, a) in s.procs ==> !HoldsJob(s.procs[Subject(s, a)]))
  {
    if a.Crash? || a.Drop? || a.ReceiveWebhook? || a.ScanInFlight? {
      QuietBreaks(c, s, a);
    } else {
      QuietMoves(c, s, a);
    }
  }

  lemma QuietBreaks(c: Config, s: State, a: Action)
    requires Inv(c, s) && Enabled(c, s, a) && (a.Crash? || a.Drop? || a.ReceiveWebhook? || a.ScanInFlight?)
    requires a.Crash? || a.Drop? ==> !HoldsJob(s.procs[a.p])
    ensures var e := Act(c, s, a);
      && e.issue == None && e.note != LostCall
      && (e.self.Some? ==> !HoldsJob(e.self.value)) && (e.spawn.Some? ==> !HoldsJob(e.spawn.value))
      && (Subject(s, a) in s.procs ==> !HoldsJob(s.procs[Subject(s, a)]))
  {}

  lemma QuietMoves(c: Config, s: State, a: Action)
    requires Enabled(c, s, a) && !a.Crash? && !a.Drop? && !a.ReceiveWebhook? && !a.ScanInFlight?
    requires a.Redeliver? ==> !HoldsJob(s.procs[a.p])
    requires !(a.ExecuteOk? && a.output.JobHandle?)
    requires a.Save? ==> !HoldsJob(s.procs[a.p])
    ensures var e := Act(c, s, a);
      && e.issue == None && e.note != LostCall
      && (e.self.Some? ==> !HoldsJob(e.self.value)) && (e.spawn.Some? ==> !HoldsJob(e.spawn.value))
      && !HoldsJob(s.procs[a.p])
  {}

  lemma CallRowKeepsJob(c: Config, s: State, a: Action, w: RowWrite)
    requires Known(c, s) && Enabled(c, s, a) && w == Act(c, s, a).write && w.WriteRow? && w.step == ExternalCall
    requires a.Save? ==> !HoldsJob(s.procs[a.p])
    ensures ExternalCall in s.rows && w.row.externalJobId == s.rows[ExternalCall].externalJobId
  {
    if HandlerCommits(a) {
      HandlersKeepJob(c, s, a, w);
    } else if Commits(a) {
      OthersKeepJob(c, s, a, w);
    } else {
      OthersWriteNothing(c, s, a);
    }
  }

  lemma HandlersKeepJob(c: Config, s: State, a: Action, w: RowWrite)
    requires Known(c, s) && Enabled(c, s, a) && HandlerCommits(a)
    requires w == Act(c, s, a).write && w.WriteRow? && w.step == ExternalCall
    requires a.Save? ==> !HoldsJob(s.procs[a.p])
    ensures ExternalCall in s.rows && w.row.externalJobId == s.rows[ExternalCall].externalJobId
  {
    assert ProcOk(c.graph, s.rows, s.hist.everDone, s.procs[a.p]);
  }

  lemma OthersKeepJob(c: Config, s: State, a: Action, w: RowWrite)
    requires Known(c, s) && Enabled(c, s, a) && (a.ClaimNext? || a.SettleCallback? || a.ReapNext?)
    requires w == Act(c, s, a).write && w.WriteRow? && w.step == ExternalCall
    ensures ExternalCall in s.rows && w.row.externalJobId == s.rows[ExternalCall].externalJobId
  {}

  lemma OthersAccounted(c: Config, s: State, a: Action, s': State)
    requires Known(c, s) && JobsAccounted(s) && Next(c, s, a, s')
    requires !(a.ExecuteOk? && a.output.JobHandle?)
    requires a.Save? || a.Crash? || a.Drop? || a.Redeliver? ==> !HoldsJob(s.procs[a.p])
    ensures JobsAccounted(s')
  {
    var e := Act(c, s, a);
    QuietJobs(c, s, a);
    if e.write.WriteRow? && e.write.step == ExternalCall {
      CallRowKeepsJob(c, s, a, e.write);
    }
    SameHolders(c, s, a, e);
    assert s'.hist.notes[LostCall] == s.hist.notes[LostCall];
  }

  lemma SameHolders(c: Config, s: State, a: Action, e: Effect)
    requires Inv(c, s) && (Subject(s, a) in s.procs || Subject(s, a) == s.nextId)
    requires e.self.Some? ==> !HoldsJob(e.self.value)
    requires e.spawn.Some? ==> !HoldsJob(e.spawn.value)
    requires Subject(s, a) in s.procs ==> !HoldsJob(s.procs[Subject(s, a)])
    requires e.write.WriteRow? && e.write.step == ExternalCall ==>
               ExternalCall in s.rows && e.write.row.externalJobId == s.rows[ExternalCall].externalJobId
    ensures JobHeld(Apply(s, Subject(s, a), e)) == JobHeld(s)
  {
    var s' := Apply(s, Subject(s, a), e);
    forall p | p in s.procs && HoldsJob(s.procs[p]) ensures p in s'.procs && HoldsJob(s'.procs[p]) {
      assert p < s.nextId;
    }
    forall p | p in s'.procs && HoldsJob(s'.procs[p]) ensures p in s.procs && HoldsJob(s.procs[p]) {}
  }

  lemma NextKeepsJobsAccounted(c: Config, s: State, a: Action, s': State)
    requires Known(c, s) && NoOverlap(s) && JobsAccounted(s) && Next(c, s, a, s')
    ensures JobsAccounted(s')
  {
    if a.ExecuteOk? && a.output.JobHandle? {
      ExecuteAccounted(c, s, a, s');
    } else if a.Save? && HoldsJob(s.procs[a.p]) {
      SaveAccounted(c, s, a, s');
    } else if a.Redeliver? && HoldsJob(s.procs[a.p]) {
      RedeliverAccounted(c, s, a, s');
    } else if (a.Crash? || a.Drop?) && HoldsJob(s.procs[a.p]) {
      CrashAccounted(c, s, a, s');
    } else {
      OthersAccounted(c, s, a, s');
    }
  }
}

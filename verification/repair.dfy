/** What the reaper is there for: whatever crashes, a step whose publish was lost waits as QUEUED, and a scan
    that picks it up puts a message for it back. */
module Repair {
  import opened Model
  import opened Dag
  import opened Rules
  import opened Protocol
  import opened Claims
  import opened NoOverlaps
  import opened Status
  import opened Outcomes
  import opened Progress

  ghost predicate MessagesKept(r: Run)
    requires |r.states| == |r.actions| + 1
  {
    forall i :: 0 <= i < |r.actions| ==> !LosesMessage(r.states[i], r.actions[i])
  }

  /** `x` is a message for step `n` that is still to run it, or is running it. */
  predicate Handles(x: Proc, n: StepName) {
    x.Delivery? && x.step == n && Unfinished(x.stage)
  }

  predicate Unfinished(stage: Stage) {
    stage.Waiting? || stage.Loaded? || stage.Checked? || stage.Executing? || stage.Saving? || stage.Failing?
        || stage.Nacking?
  }

  predicate IsRunning(rows: Rows, n: StepName) {
    n in rows && rows[n].status == Running
  }

  ghost predicate Handled(s: State, n: StepName) {
    exists p :: p in s.procs && Handles(s.procs[p], n)
  }

  /** RUNNING rows have their message. */
  ghost predicate RunningHandled(s: State) {
    forall n :: IsRunning(s.rows, n) ==> s.doc == Failed || Handled(s, n)
  }

  lemma ReaderHandlesOn(c: Config, s: State, a: Action, n: StepName)
    requires Enabled(c, s, a) && !LosesMessage(s, a) && IsRunning(s.rows, n)
    requires a.Deliver? || a.LoadDocument? || a.ExecuteOk? || a.ExecuteFail? || a.Nack? || a.Crash? || a.MarkRunning?
          || a.Redeliver?
    requires Handles(s.procs[a.p], n)
    ensures var e := Act(c, s, a); s.doc == Failed || (e.self.Some? && Handles(e.self.value, n))
  {}

  lemma FinisherStopsRunning(c: Config, s: State, a: Action, n: StepName)
    requires Known(c, s) && Enabled(c, s, a) && (a.Save? || a.FailAttempt?) && Handles(s.procs[a.p], n)
    ensures !IsRunning(Rewrite(s.rows, Act(c, s, a).write), n)
  {
    assert ProcFresh(s.rows, s.procs[a.p]) && ProcOk(c.graph, s.rows, s.hist.everDone, s.procs[a.p]);
  }

  lemma OnlyTheseMoveHandlers(c: Config, s: State, a: Action, n: StepName)
    requires Enabled(c, s, a) && !LosesMessage(s, a) && Subject(s, a) in s.procs && Handles(s.procs[Subject(s, a)], n)
    requires !a.ReceiveWebhook? && !a.ScanInFlight?
    ensures a.Deliver? || a.LoadDocument? || a.ExecuteOk? || a.ExecuteFail? || a.Nack? || a.Crash? || a.MarkRunning?
         || a.Save? || a.FailAttempt? || a.Redeliver?
  {}

  /** A row that becomes RUNNING is handled by the process that wrote it. */
  lemma NewlyRunning(c: Config, s: State, a: Action, n: StepName)
    requires Known(c, s) && Enabled(c, s, a)
    requires !IsRunning(s.rows, n) && IsRunning(Rewrite(s.rows, Act(c, s, a).write), n)
    ensures a.MarkRunning? && Act(c, s, a).self.Some? && Handles(Act(c, s, a).self.value, n)
  {
    NewlyInFlightWriter(c, s, a, n);
  }

  lemma NewlyInFlightWriter(c: Config, s: State, a: Action, n: StepName)
    requires Known(c, s) && Enabled(c, s, a)
    requires !IsRunning(s.rows, n) && IsRunning(Rewrite(s.rows, Act(c, s, a).write), n)
    ensures a.MarkRunning? && s.procs[a.p].step == n
  {
    if Subject(s, a) in s.procs {
      assert ProcFresh(s.rows, s.procs[Subject(s, a)]);
      assert ProcOk(c.graph, s.rows, s.hist.everDone, s.procs[Subject(s, a)]);
    }
  }

  lemma NextKeepsHandled(c: Config, s: State, a: Action, s': State, n: StepName)
    requires Known(c, s) && RunningHandled(s) && Next(c, s, a, s') && !LosesMessage(s, a)
    requires IsRunning(s'.rows, n) && (s.doc == Failed ==> s'.doc == Failed)
    ensures s'.doc == Failed || Handled(s', n)
  {
    hide RowsSettled, Fresh, LosesMessage;
    var p, e := Subject(s, a), Act(c, s, a);
    EnabledSubject(c, s, a);
    if !IsRunning(s.rows, n) {
      NewlyRunning(c, s, a, n);
      ActorStays(s, p, e);
      assert Handles(s'.procs[p], n);
    } else if s.doc != Failed {
      var w :| w in s.procs && Handles(s.procs[w], n);
      if w != p {
        OthersStay(c, s, p, e, w);
        assert Handles(s'.procs[w], n);
      } else {
        HandlerGoesOn(c, s, a, n);
        ActorStays(s, p, e);
        assert Handles(s'.procs[p], n);
      }
    }
  }

  lemma HandlerGoesOn(c: Config, s: State, a: Action, n: StepName)
    requires Known(c, s) && Enabled(c, s, a) && !LosesMessage(s, a) && s.doc != Failed
    requires IsRunning(s.rows, n) && IsRunning(Rewrite(s.rows, Act(c, s, a).write), n)
    requires Subject(s, a) in s.procs && Handles(s.procs[Subject(s, a)], n)
    ensures var e := Act(c, s, a); e.self.Some? && Handles(e.self.value, n)
    ensures Subject(s, a) < s.nextId
  {
    hide RowsSettled, Fresh, LosesMessage, Act;
    EnabledSubject(c, s, a);
    assert Subject(s, a) < s.nextId;
    OnlyTheseMoveHandlers(c, s, a, n);
    if a.Save? || a.FailAttempt? {
      FinisherStopsRunning(c, s, a, n);
    } else {
      ReaderHandlesOn(c, s, a, n);
    }
  }

  lemma NextKeepsRunningHandled(c: Config, s: State, a: Action, s': State)
    requires Known(c, s) && RunningHandled(s) && Next(c, s, a, s') && !LosesMessage(s, a)
    requires s.doc == Failed ==> s'.doc == Failed
    ensures RunningHandled(s')
  {
    forall n | IsRunning(s'.rows, n) ensures s'.doc == Failed || Handled(s', n) {
      NextKeepsHandled(c, s, a, s', n);
    }
  }

  ghost predicate Repairable(c: Config, s: State) {
    Settling(c, s) && RunningHandled(s)
  }

  lemma StepKeepsRepairable(c: Config, r: Run, i: nat)
    requires ValidConfig(c) && IsRun(c, r) && NoOverlapEver(r) && MessagesKept(r) && i < |r.actions|
    requires Repairable(c, r.states[i])
    ensures Repairable(c, r.states[i+1])
  {
    StepOf(c, r, i);
    NoOverlapAt(r, i);
    NextKeepsSettling(c, r.states[i], r.actions[i], r.states[i+1]);
    NextKeepsRunningHandled(c, r.states[i], r.actions[i], r.states[i+1]);
  }

  lemma InitialRepairable(c: Config)
    requires ValidConfig(c)
    ensures Repairable(c, Initial(c))
  {
    InitialSettling(c);
  }

  /** Without overlap and with crashes anywhere, lost publishes included: a step in flight has its message,
      or is QUEUED, or its document is FAILED. So what a lost publish leaves behind is what the reaper
      re-publishes, never a RUNNING row that it would leave alone. */
  lemma LostPublishesStayQueued(c: Config, r: Run, i: nat, n: StepName)
    requires ValidConfig(c) && IsRun(c, r) && NoOverlapEver(r) && MessagesKept(r) && i < |r.states|
    requires Ongoing(r.states[i].rows, n)
    ensures r.states[i].rows[n].status == Queued || r.states[i].doc == Failed || Handled(r.states[i], n)
  {
    var P := (s: State) => Repairable(c, s);
    InitialRepairable(c);
    forall k {:trigger Keeps(r, P, k)} | 0 <= k < |r.states| - 1 ensures Keeps(r, P, k) {
      if P(r.states[k]) {
        StepKeepsRepairable(c, r, k);
      }
    }
    Induct(r, P, 0, i);
  }

  // ---- re-publishing ----

  lemma ScanOf(c: Config, s: State, n: StepName)
    requires n in s.rows && s.rows[n].status == Queued
    ensures Enabled(c, s, ScanInFlight([n])) && Subject(s, ScanInFlight([n])) == s.nextId
    ensures Act(c, s, ScanInFlight([n])) == VANISH.(spawn := Some(Reaper(InFlight, [Selected(n, s.rows[n])], None)))
  {
    assert Selection(s.rows, [n]) == [Selected(n, s.rows[n])];
  }

  lemma ReapOf(c: Config, s: State, p: nat, n: StepName, row: Row)
    requires p in s.procs && s.procs[p] == Reaper(InFlight, [Selected(n, row)], None) && n in s.rows
    requires row.status == Queued && row.attempts < c.maxAttempts
    ensures Enabled(c, s, ReapNext(p)) && Subject(s, ReapNext(p)) == p
    ensures Act(c, s, ReapNext(p)) == Become(Reaper(InFlight, [], None)).(spawn := Some(NewMessage(n)))
  {
    assert [Selected(n, row)][1..] == [];
  }

  /** A scan can pick any QUEUED row that has attempts left, and its next action puts a message for it in the
      broker and changes no row. */
  lemma ScanRepairs(c: Config, s: State, n: StepName) returns (scanned: State, repaired: State)
    requires Inv(c, s) && n in s.rows && s.rows[n].status == Queued && s.rows[n].attempts < c.maxAttempts
    ensures Next(c, s, ScanInFlight([n]), scanned)
    ensures Next(c, scanned, ReapNext(s.nextId), repaired)
    ensures Handled(repaired, n) && repaired.rows == s.rows && repaired.doc == s.doc
  {
    hide Inv, Enabled, Act;
    ScanOf(c, s, n);
    scanned := Apply(s, s.nextId, Act(c, s, ScanInFlight([n])));
    ReapOf(c, scanned, s.nextId, n, s.rows[n]);
    repaired := Apply(scanned, s.nextId, Act(c, scanned, ReapNext(s.nextId)));
    assert Handles(repaired.procs[s.nextId + 1], n);
  }

  /** Along a run without overlap every QUEUED row qualifies. */
  lemma QueuedIsRepairable(c: Config, r: Run, i: nat, n: StepName) returns (scanned: State, repaired: State)
    requires ValidConfig(c) && IsRun(c, r) && NoOverlapEver(r) && i < |r.states|
    requires n in r.states[i].rows && r.states[i].rows[n].status == Queued
    ensures Next(c, r.states[i], ScanInFlight([n]), scanned)
    ensures Next(c, scanned, ReapNext(r.states[i].nextId), repaired)
    ensures Handled(repaired, n) && repaired.rows == r.states[i].rows && repaired.doc == r.states[i].doc
  {
    RunInv(c, r, i);
    AttemptsStayBelowTheLimit(c, r, i, n);
    hide ValidConfig, IsRun, NoOverlapEver, Next, Inv;
    scanned, repaired := ScanRepairs(c, r.states[i], n);
  }
}

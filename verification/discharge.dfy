/** Where the no-overlap assumption holds by itself: writers of one step come from a reaper scan, from a message
    that went back while its handler lived on, or from two webhooks. Without these, no crash, lost message or
    interleaving makes two writers of one step overlap. */
module Discharges {
  import opened Model
  import opened Dag
  import opened Rules
  import opened Protocol
  import opened Claims
  import opened Bounds

  ghost predicate NoRedelivery(r: Run) {
    forall i :: 0 <= i < |r.actions| ==> !r.actions[i].Redeliver?
  }

  predicate Decides(x: Proc) {
    x.Webhook? && x.hookStage.Deciding?
  }

  /** No webhook looks its job up while another one is between its lookup and its commit. */
  ghost predicate OneDecides(s: State) {
    forall p, q :: p in s.procs && q in s.procs && Decides(s.procs[p]) && Decides(s.procs[q]) ==> p == q
  }

  ghost predicate OneDecidesEver(r: Run) {
    forall i :: 0 <= i < |r.states| ==> OneDecides(r.states[i])
  }

  // ---- a job id closes the window on external_call ----

  predicate InWindow(stage: Stage) {
    stage.Loaded? || stage.Checked? || stage.Executing? || stage.Saving? || stage.Failing?
  }

  predicate WritesCall(x: Proc) {
    x.Delivery? && x.step == ExternalCall && InWindow(x.stage)
  }

  predicate JobStored(rows: Rows) {
    ExternalCall in rows && rows[ExternalCall].externalJobId.Some?
  }

  /** Once external_call has its job id, no handler writes its row; before that, no webhook does. */
  predicate CallRowOk(rows: Rows) {
    JobStored(rows) ==> TerminalForRun(rows[ExternalCall].status)
  }

  predicate CallProcOk(rows: Rows, x: Proc) {
    (JobStored(rows) ==> !WritesCall(x)) && (Decides(x) ==> JobStored(rows))
  }

  ghost predicate CallQuiet(s: State) {
    CallRowOk(s.rows) && forall p :: p in s.procs ==> CallProcOk(s.rows, s.procs[p])
  }

  /** What the effect makes of the row of external_call. */
  ghost predicate QuietEffect(s: State, p: nat, e: Effect) {
    var rows' := Rewrite(s.rows, e.write);
    && CallRowOk(rows')
    && (JobStored(s.rows) ==> JobStored(rows'))
    && (JobStored(rows') && !JobStored(s.rows) ==> p in s.procs && WritesCall(s.procs[p]))
    && (e.self.Some? ==> CallProcOk(rows', e.self.value))
    && (e.spawn.Some? ==> CallProcOk(rows', e.spawn.value))
  }

  lemma ApplyKeepsQuiet(s: State, p: nat, e: Effect)
    requires OneHolderEach(s) && CallQuiet(s) && QuietEffect(s, p, e)
    ensures CallQuiet(Apply(s, p, e))
  {
    var s' := Apply(s, p, e);
    forall q | q in s'.procs ensures CallProcOk(s'.rows, s'.procs[q]) {
      if q in s.procs && q != p && s'.procs[q] == s.procs[q] {
        assert CallProcOk(s.rows, s.procs[q]);
        if JobStored(s'.rows) && !JobStored(s.rows) {
          assert HolderOk(s, p, ExternalCall) && Holds(s.procs[p], ExternalCall);
        }
      }
    }
  }

  lemma HandlerKeepsQuiet(c: Config, s: State, a: Action)
    requires Inv(c, s) && CallQuiet(s) && Enabled(c, s, a) && HandlerCommits(a)
    ensures QuietEffect(s, a.p, Act(c, s, a))
  {
    hide Inv, CallQuiet, Enabled, Act, QuietEffect;
    if a.Save? {
      SaveKeepsQuiet(c, s, a);
    } else {
      AttemptKeepsQuiet(c, s, a);
    }
  }

  lemma SaveKeepsQuiet(c: Config, s: State, a: Action)
    requires Inv(c, s) && CallQuiet(s) && Enabled(c, s, a) && a.Save?
    ensures QuietEffect(s, a.p, Act(c, s, a))
  {
    assert CallProcOk(s.rows, s.procs[a.p]);
    assert ProcOk(c.graph, s.rows, s.hist.everDone, s.procs[a.p]);
  }

  lemma AttemptKeepsQuiet(c: Config, s: State, a: Action)
    requires Inv(c, s) && CallQuiet(s) && Enabled(c, s, a) && (a.MarkRunning? || a.FailAttempt?)
    ensures QuietEffect(s, a.p, Act(c, s, a))
  {
    assert CallProcOk(s.rows, s.procs[a.p]);
    assert ProcOk(c.graph, s.rows, s.hist.everDone, s.procs[a.p]);
  }

  lemma ClaimKeepsQuiet(c: Config, s: State, a: Action)
    requires Inv(c, s) && CallQuiet(s) && Enabled(c, s, a) && a.ClaimNext?
    ensures QuietEffect(s, a.p, Act(c, s, a))
  {
    assert RowOk(c.graph, s.rows, s.hist.everDone, s.procs[a.p].stage.todo[0]);
  }

  lemma SettleKeepsQuiet(c: Config, s: State, a: Action)
    requires CallQuiet(s) && Enabled(c, s, a) && a.SettleCallback?
    ensures QuietEffect(s, a.p, Act(c, s, a))
  {
    assert CallProcOk(s.rows, s.procs[a.p]);
  }

  lemma RecomputeKeepsQuiet(c: Config, s: State, a: Action)
    requires CallQuiet(s) && Enabled(c, s, a) && a.RecomputeStep?
    ensures QuietEffect(s, a.p, Act(c, s, a))
  {
    hide DeriveDocumentStatus;
  }

  lemma MoveKeepsQuiet(c: Config, s: State, a: Action)
    requires CallQuiet(s) && Enabled(c, s, a) && !Commits(a) && !Ends(a) && !a.RecomputeStep? && !a.Redeliver?
    ensures QuietEffect(s, Subject(s, a), Act(c, s, a))
  {
    assert Subject(s, a) in s.procs ==> CallProcOk(s.rows, s.procs[Subject(s, a)]);
  }

  lemma ActionKeepsQuiet(c: Config, s: State, a: Action)
    requires Inv(c, s) && CallQuiet(s) && Enabled(c, s, a) && !a.Redeliver? && !a.ReapNext?
    ensures QuietEffect(s, Subject(s, a), Act(c, s, a))
  {
    hide Inv, Enabled, Act;
    if HandlerCommits(a) {
      HandlerKeepsQuiet(c, s, a);
    } else if a.ClaimNext? {
      ClaimKeepsQuiet(c, s, a);
    } else if a.SettleCallback? {
      SettleKeepsQuiet(c, s, a);
    } else if Ends(a) {
      EndersVanish(c, s, a);
    } else if a.RecomputeStep? {
      RecomputeKeepsQuiet(c, s, a);
    } else {
      MoveKeepsQuiet(c, s, a);
    }
  }

  lemma NobodyReaps(c: Config, s: State, a: Action)
    requires OneHolderEach(s) && Enabled(c, s, a)
    ensures !a.ReapNext?
  {
    forall p | p in s.procs ensures !s.procs[p].Reaper? {
      assert Single(s.procs[p]);
    }
  }

  // ---- whole runs ----

  ghost predicate Apart(s: State) {
    OneHolderEach(s) && CallQuiet(s)
  }

  lemma NextKeepsApart(c: Config, s: State, a: Action, s': State)
    requires Inv(c, s) && Apart(s) && Next(c, s, a, s') && !a.Redeliver? && !a.ScanInFlight?
    requires Evolve(s.rows, s.hist.everDone, s'.rows, s'.hist.everDone)
    ensures Apart(s')
  {
    NextKeepsOneHolder(c, s, a, s');
    NobodyReaps(c, s, a);
    ActionKeepsQuiet(c, s, a);
    hide Inv, OneHolderEach, CallQuiet, Enabled, Act;
    ApplyKeepsQuiet(s, Subject(s, a), Act(c, s, a));
  }

  lemma InitialApart(c: Config)
    requires ValidConfig(c)
    ensures Apart(Initial(c))
  {
    FilterDistinct(c.graph.nodes, n => PredsOf(c.graph, n) == {});
    InitialHolders(c);
    InitialQuiet(c);
  }

  lemma InitialHolders(c: Config)
    requires Distinct(EntryNodes(c.graph))
    ensures OneHolderEach(Initial(c))
  {}

  lemma InitialQuiet(c: Config)
    ensures CallQuiet(Initial(c))
  {}

  lemma StepKeepsApart(c: Config, r: Run, i: nat)
    requires ValidConfig(c) && IsRun(c, r) && ReaperFree(r) && NoRedelivery(r) && i < |r.actions| && Apart(r.states[i])
    ensures Apart(r.states[i+1])
  {
    RunInv(c, r, i);
    StepKeepsInv(c, r, i);
    StepOf(c, r, i);
    NextKeepsApart(c, r.states[i], r.actions[i], r.states[i+1]);
  }

  lemma ApartDoesNotOverlap(s: State)
    requires Apart(s) && OneDecides(s)
    ensures NoOverlap(s)
  {
    forall p, q | p in s.procs && q in s.procs && p != q ensures Writes(s.procs[p]) !! Writes(s.procs[q]) {
      forall n | n in Writes(s.procs[p]) ensures n !in Writes(s.procs[q]) {
        OneWriter(s, p, q, n);
      }
    }
  }

  lemma OneWriter(s: State, p: nat, q: nat, n: StepName)
    requires Apart(s) && OneDecides(s) && p in s.procs && q in s.procs && p != q && n in Writes(s.procs[p])
    ensures n !in Writes(s.procs[q])
  {
    WriterIs(s, p, n);
    assert HolderOk(s, p, n) && CallProcOk(s.rows, s.procs[p]) && CallProcOk(s.rows, s.procs[q]);
    if n in Writes(s.procs[q]) {
      WriterIs(s, q, n);
    }
  }

  lemma WriterIs(s: State, p: nat, n: StepName)
    requires OneHolderEach(s) && p in s.procs && n in Writes(s.procs[p])
    ensures (Holds(s.procs[p], n) && s.procs[p].Delivery? && s.procs[p].step == n && InWindow(s.procs[p].stage))
         || (n == ExternalCall && Decides(s.procs[p]))
  {
    assert Single(s.procs[p]);
  }

  /** Without scans, without redelivery under a live handler, and with webhooks decided one at a time, writers
      of one step never overlap: whatever crashes, is dropped or dead-lettered, and however the rest interleaves. */
  lemma NoOverlapHolds(c: Config, r: Run)
    requires ValidConfig(c) && IsRun(c, r) && ReaperFree(r) && NoRedelivery(r) && OneDecidesEver(r)
    ensures NoOverlapEver(r)
  {
    var P := (s: State) => Apart(s);
    InitialApart(c);
    forall k {:trigger Keeps(r, P, k)} | 0 <= k < |r.states| - 1 ensures Keeps(r, P, k) {
      if P(r.states[k]) {
        StepKeepsApart(c, r, k);
      }
    }
    forall i {:trigger NoOverlapIn(r, i)} | 0 <= i < |r.states| ensures NoOverlapIn(r, i) {
      Induct(r, P, 0, i);
      ApartDoesNotOverlap(r.states[i]);
    }
  }
}

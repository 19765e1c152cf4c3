/** What holds in every run in which no two writers of one step overlap (the no-overlap assumption). Crashes,
    redeliveries, duplicates and any interleaving of different steps are still allowed. */
module NoOverlaps {
  import opened Model
  import opened Dag
  import opened Rules
  import opened Protocol
  import opened Claims

  // ---- what a writer read is still what is stored ----

  ghost predicate RowFresh(rows: Rows, loaded: Rows, n: StepName) {
    n in rows && n in loaded && rows[n] == loaded[n]
  }

  ghost predicate DistinctSteps(selected: seq<Selected>) {
    forall i, j :: 0 <= i < j < |selected| ==> selected[i].step != selected[j].step
  }

  ghost predicate SelectedFresh(rows: Rows, selected: seq<Selected>) {
    && DistinctSteps(selected)
    && forall sel :: sel in selected ==> sel.step in rows && rows[sel.step] == sel.row
  }

  ghost predicate ProcFresh(rows: Rows, x: Proc) {
    match x
    case Delivery(n, _, stage) =>
      (match stage
       case Loaded(loaded) => RowFresh(rows, loaded, n)
       case Checked(loaded, _) => RowFresh(rows, loaded, n)
       case Executing(loaded, _) => RowFresh(rows, loaded, n)
       case Saving(loaded, _, _) => RowFresh(rows, loaded, n)
       case Failing(loaded, _) => RowFresh(rows, loaded, n)
       case _ => true)
    case Webhook(_, stage) => stage.Deciding? ==> ExternalCall in rows && rows[ExternalCall] == stage.row
    case Reaper(_, selected, _) => SelectedFresh(rows, selected)
    case Creator(_) => true
  }

  ghost predicate Fresh(s: State) {
    forall p :: p in s.procs ==> ProcFresh(s.rows, s.procs[p])
  }

  lemma FreshUntouched(rows: Rows, rows': Rows, x: Proc)
    requires ProcFresh(rows, x) && rows'.Keys == rows.Keys
    requires forall n :: n in Writes(x) ==> n in rows && rows'[n] == rows[n]
    ensures ProcFresh(rows', x)
  {
    if x.Reaper? {
      forall sel | sel in x.selected ensures rows'[sel.step] == sel.row {
        assert sel.step in Writes(x);
      }
    }
  }

  /** A row is written by a process whose window is open on it, or claimed out of PENDING. */
  ghost predicate OwnsWrite(s: State, p: nat, w: RowWrite) {
    w.WriteRow? ==>
      && w.step in s.rows
      && (s.rows[w.step].status == Pending || (p in s.procs && w.step in Writes(s.procs[p])))
  }

  ghost predicate FreshEffect(s: State, p: nat, e: Effect) {
    && OwnsWrite(s, p, e.write)
    && (e.self.Some? ==> ProcFresh(Rewrite(s.rows, e.write), e.self.value))
    && (e.spawn.Some? ==> ProcFresh(Rewrite(s.rows, e.write), e.spawn.value))
  }

  /** The steps a process has its window open on have left PENDING. */
  lemma WindowsLeftPending(c: Config, s: State, p: nat, n: StepName)
    requires Inv(c, s) && p in s.procs && n in Writes(s.procs[p])
    ensures LeftPending(s.rows, n)
  {
    assert ProcOk(c.graph, s.rows, s.hist.everDone, s.procs[p]);
  }

  lemma ApplyKeepsFresh(c: Config, s: State, p: nat, e: Effect)
    requires Inv(c, s) && Fresh(s) && NoOverlap(s) && FreshEffect(s, p, e)
    ensures Fresh(Apply(s, p, e))
  {
    var s' := Apply(s, p, e);
    forall q | q in s'.procs ensures ProcFresh(s'.rows, s'.procs[q]) {
      if q in s.procs && q != p && s'.procs[q] == s.procs[q] {
        OthersAreNotWritten(c, s, p, q, e.write);
        FreshUntouched(s.rows, s'.rows, s.procs[q]);
      }
    }
  }

  lemma OthersAreNotWritten(c: Config, s: State, p: nat, q: nat, w: RowWrite)
    requires Inv(c, s) && NoOverlap(s) && OwnsWrite(s, p, w) && q in s.procs && q != p
    ensures Rewrite(s.rows, w).Keys == s.rows.Keys
    ensures forall n :: n in Writes(s.procs[q]) ==> n in s.rows && Rewrite(s.rows, w)[n] == s.rows[n]
  {
    forall n | n in Writes(s.procs[q]) ensures n in s.rows && Rewrite(s.rows, w)[n] == s.rows[n] {
      WindowsLeftPending(c, s, q, n);
    }
  }

  /** With a fresh window, a commit writes exactly the session's row. */
  lemma FlushOfFresh(loaded: Row, changed: Row)
    ensures Flush(loaded, changed, loaded) == changed
  {}

  lemma HandlerFresh(c: Config, s: State, a: Action)
    requires Inv(c, s) && Fresh(s) && Enabled(c, s, a)
    requires a.Deliver? || a.LoadDocument? || a.ExecuteOk? || a.ExecuteFail? || a.Nack? || a.Redeliver?
    ensures FreshEffect(s, a.p, Act(c, s, a))
  {
    assert ProcFresh(s.rows, s.procs[a.p]);
  }

  lemma CommitFresh(c: Config, s: State, a: Action)
    requires Inv(c, s) && Fresh(s) && Enabled(c, s, a)
    requires a.MarkRunning? || a.Save? || a.FailAttempt? || a.SettleCallback?
    ensures FreshEffect(s, a.p, Act(c, s, a))
  {
    assert ProcFresh(s.rows, s.procs[a.p]);
  }

  lemma TriggerFresh(c: Config, s: State, a: Action)
    requires Inv(c, s) && Fresh(s) && Enabled(c, s, a)
    requires a.ReadReady? || a.ClaimNext? || a.PublishClaimed? || a.EndClaims?
    ensures FreshEffect(s, a.p, Act(c, s, a))
  {}

  lemma RecomputeFresh(c: Config, s: State, a: Action)
    requires Inv(c, s) && Fresh(s) && Enabled(c, s, a) && a.RecomputeStep?
    ensures FreshEffect(s, a.p, Act(c, s, a))
  {
    assert ProcFresh(s.rows, s.procs[a.p]);
  }

  lemma EndFresh(c: Config, s: State, a: Action)
    requires Inv(c, s) && Fresh(s) && Enabled(c, s, a)
    requires Ends(a) || a.LookupJob?
    ensures FreshEffect(s, Subject(s, a), Act(c, s, a))
  {
    hide Inv, Fresh, Act;
    if Ends(a) {
      EndersVanish(c, s, a);
    } else {
      LookupFresh(c, s, a);
    }
  }

  lemma LookupFresh(c: Config, s: State, a: Action)
    requires Enabled(c, s, a) && a.LookupJob?
    ensures FreshEffect(s, a.p, Act(c, s, a))
  {}

  lemma StartFresh(c: Config, s: State, a: Action)
    requires Inv(c, s) && Fresh(s) && Enabled(c, s, a) && (a.ReceiveWebhook? || a.PublishEntry? || a.Crash?)
    ensures FreshEffect(s, Subject(s, a), Act(c, s, a))
  {}

  lemma SelectionFresh(rows: Rows, picked: seq<StepName>)
    requires forall n :: n in picked ==> n in rows
    requires forall i, j :: 0 <= i < j < |picked| ==> picked[i] != picked[j]
    ensures SelectedFresh(rows, Selection(rows, picked))
  {
    SelectionMembers(rows, picked);
  }

  lemma ScanFresh(c: Config, s: State, a: Action)
    requires Inv(c, s) && Fresh(s) && Enabled(c, s, a) && (a.ScanInFlight? || a.ScanCallbacks?)
    ensures FreshEffect(s, Subject(s, a), Act(c, s, a))
  {
    SelectionFresh(s.rows, a.picked);
  }

  lemma RestFresh(rows: Rows, selected: seq<Selected>, rows': Rows)
    requires selected != [] && SelectedFresh(rows, selected) && rows'.Keys == rows.Keys
    requires forall n :: n in rows && n != selected[0].step ==> rows'[n] == rows[n]
    ensures SelectedFresh(rows', selected[1..])
  {
    var rest := selected[1..];
    forall i, j | 0 <= i < j < |rest| ensures rest[i].step != rest[j].step {
      assert selected[i+1].step != selected[j+1].step;
    }
    forall sel | sel in rest ensures sel.step in rows' && rows'[sel.step] == sel.row {
      var i :| 0 <= i < |rest| && rest[i] == sel;
      assert sel in selected && selected[0].step != selected[i+1].step;
    }
  }

  lemma ReapNextFresh(c: Config, s: State, a: Action)
    requires Inv(c, s) && Fresh(s) && Enabled(c, s, a) && a.ReapNext?
    ensures FreshEffect(s, a.p, Act(c, s, a))
  {
    var x := s.procs[a.p];
    var e := Act(c, s, a);
    assert ProcFresh(s.rows, x);
    assert x.selected[0] in x.selected;
    RestFresh(s.rows, x.selected, Rewrite(s.rows, e.write));
  }

  lemma NextKeepsFresh(c: Config, s: State, a: Action, s': State)
    requires Inv(c, s) && Fresh(s) && NoOverlap(s) && Next(c, s, a, s')
    ensures Fresh(s')
    ensures OwnsWrite(s, Subject(s, a), Act(c, s, a).write)
  {
    hide Inv, Fresh, NoOverlap, Enabled, Act, FreshEffect, OwnsWrite;
    ActionFresh(c, s, a);
    EffectOwnsWrite(s, Subject(s, a), Act(c, s, a));
    ApplyKeepsFresh(c, s, Subject(s, a), Act(c, s, a));
  }

  lemma EffectOwnsWrite(s: State, p: nat, e: Effect)
    requires FreshEffect(s, p, e)
    ensures OwnsWrite(s, p, e.write)
  {}

  lemma ActionFresh(c: Config, s: State, a: Action)
    requires Inv(c, s) && Fresh(s) && Enabled(c, s, a)
    ensures FreshEffect(s, Subject(s, a), Act(c, s, a))
  {
    hide Inv, Fresh, Enabled, Act, FreshEffect;
    if a.Deliver? || a.LoadDocument? || a.ExecuteOk? || a.ExecuteFail? || a.Nack? || a.Redeliver? {
      HandlerFresh(c, s, a);
    } else if a.MarkRunning? || a.Save? || a.FailAttempt? || a.SettleCallback? {
      CommitFresh(c, s, a);
    } else if a.ReadReady? || a.ClaimNext? || a.PublishClaimed? || a.EndClaims? {
      TriggerFresh(c, s, a);
    } else if a.RecomputeStep? {
      RecomputeFresh(c, s, a);
    } else if a.ScanInFlight? || a.ScanCallbacks? {
      ScanFresh(c, s, a);
    } else if a.ReapNext? {
      ReapNextFresh(c, s, a);
    } else if a.ReceiveWebhook? || a.PublishEntry? || a.Crash? {
      StartFresh(c, s, a);
    } else {
      EndFresh(c, s, a);
    }
  }

  // ---- rows ----

  /** A completed webhook for this row's job is in the log, and the row holds its payload. */
  ghost predicate Confirmed(hooks: seq<Hook>, row: Row) {
    exists h :: h in hooks && h.completed && row.externalJobId == Some(h.job) && row.result == Some(Dict(h.payload))
  }

  ghost predicate RowSettled(c: Config, h: History, hooks: seq<Hook>, n: StepName, row: Row) {
    && (row.status == AwaitingCallback ==> n == ExternalCall && row.externalJobId.Some?)
    && (row.externalJobId.Some? ==>
          && n == ExternalCall && row.status in {AwaitingCallback, Done, Error}
          && row.externalJobId.value in h.issued)
    && (row.status == Done && n == ExternalCall ==> row.externalJobId.Some? && Confirmed(hooks, row))
    && (row.status != Error ==> row.attempts < c.maxAttempts)
    && (n in h.everDone ==> row.status == Done)
  }

  ghost predicate ProcSettled(h: History, hooks: seq<Hook>, x: Proc) {
    match x
    case Delivery(n, _, stage) => stage.Saving? && stage.output.JobHandle? ==> stage.output.job in h.issued
    case Webhook(hook, stage) =>
      hook in hooks && (stage.Deciding? ==> stage.row.externalJobId == Some(hook.job))
    case _ => true
  }

  ghost predicate RowsSettled(c: Config, s: State) {
    && (forall n :: n in s.rows ==> RowSettled(c, s.hist, s.hooks, n, s.rows[n]))
    && (forall p :: p in s.procs ==> ProcSettled(s.hist, s.hooks, s.procs[p]))
  }

  /** DONE and ERROR are final, attempts never decrease, a job id is never replaced. */
  ghost predicate RowAdvances(old_: Row, new_: Row) {
    && (old_.status in {Done, Error} ==> new_ == old_)
    && old_.attempts <= new_.attempts
    && (old_.externalJobId.Some? ==> new_.externalJobId == old_.externalJobId)
  }

  ghost predicate RowsAdvance(old_: Rows, new_: Rows) {
    forall n :: n in old_ ==> n in new_ && RowAdvances(old_[n], new_[n])
  }

  ghost predicate SettledEffect(c: Config, s: State, e: Effect) {
    var h' := Remember(s.hist, e);
    var hooks' := if e.hook.Some? then s.hooks + [e.hook.value] else s.hooks;
    && (e.write.WriteRow? ==>
          && e.write.step in s.rows
          && RowAdvances(s.rows[e.write.step], e.write.row)
          && RowSettled(c, h', hooks', e.write.step, e.write.row))
    && (e.self.Some? ==> ProcSettled(h', hooks', e.self.value))
    && (e.spawn.Some? ==> ProcSettled(h', hooks', e.spawn.value))
  }

  lemma RowSettledStays(c: Config, h: History, hooks: seq<Hook>, h': History, hooks': seq<Hook>, n: StepName, row: Row)
    requires RowSettled(c, h, hooks, n, row)
    requires h.issued <= h'.issued && (n in h'.everDone ==> n in h.everDone)
    requires forall k :: k in hooks ==> k in hooks'
    ensures RowSettled(c, h', hooks', n, row)
  {
    if Confirmed(hooks, row) {
      assert Confirmed(hooks', row);
    }
  }

  lemma ApplyKeepsSettled(c: Config, s: State, p: nat, e: Effect)
    requires RowsSettled(c, s) && SettledEffect(c, s, e)
    ensures RowsSettled(c, Apply(s, p, e))
    ensures RowsAdvance(s.rows, Apply(s, p, e).rows)
  {
    var s' := Apply(s, p, e);
    forall n | n in s'.rows ensures RowSettled(c, s'.hist, s'.hooks, n, s'.rows[n]) {
      if !(e.write.WriteRow? && e.write.step == n) {
        RowSettledStays(c, s.hist, s.hooks, s'.hist, s'.hooks, n, s.rows[n]);
      }
    }
    forall q | q in s'.procs ensures ProcSettled(s'.hist, s'.hooks, s'.procs[q]) {
      if q in s.procs && s'.procs[q] == s.procs[q] {
        assert ProcSettled(s.hist, s.hooks, s.procs[q]);
      }
    }
  }

  ghost predicate Known(c: Config, s: State) {
    Inv(c, s) && Fresh(s) && RowsSettled(c, s)
  }

  lemma FailAttemptSettled(c: Config, s: State, a: Action)
    requires ValidConfig(c) && Known(c, s) && Enabled(c, s, a) && a.FailAttempt?
    ensures SettledEffect(c, s, Act(c, s, a))
  {
    var x := s.procs[a.p];
    assert ProcFresh(s.rows, x) && ProcOk(c.graph, s.rows, s.hist.everDone, x);
    assert RowSettled(c, s.hist, s.hooks, x.step, s.rows[x.step]);
    FlushOfFresh(s.rows[x.step], FailedOnce(s.rows[x.step], c.maxAttempts));
  }

  lemma MarkRunningSettled(c: Config, s: State, a: Action)
    requires ValidConfig(c) && Known(c, s) && Enabled(c, s, a) && a.MarkRunning?
    ensures SettledEffect(c, s, Act(c, s, a))
  {
    var x := s.procs[a.p];
    assert ProcFresh(s.rows, x) && ProcOk(c.graph, s.rows, s.hist.everDone, x);
    assert RowSettled(c, s.hist, s.hooks, x.step, s.rows[x.step]);
  }

  lemma SaveSettled(c: Config, s: State, a: Action)
    requires ValidConfig(c) && Known(c, s) && Enabled(c, s, a) && a.Save?
    ensures SettledEffect(c, s, Act(c, s, a))
  {
    SaveEffectSettled(c, s, a.p);
  }

  lemma SaveEffectSettled(c: Config, s: State, p: nat)
    requires ValidConfig(c) && Known(c, s) && HandlerAt(s, p)
    requires s.procs[p].stage.Saving? && s.procs[p].step in s.procs[p].stage.rows
    ensures SettledEffect(c, s, SaveEffect(s.rows[s.procs[p].step], s.procs[p]))
  {
    hide ValidConfig;
    var x := s.procs[p];
    assert ProcFresh(s.rows, x) && ProcOk(c.graph, s.rows, s.hist.everDone, x);
    assert ProcSettled(s.hist, s.hooks, x);
    assert RowSettled(c, s.hist, s.hooks, x.step, s.rows[x.step]);
  }

  lemma ClaimSettled(c: Config, s: State, a: Action)
    requires Known(c, s) && Enabled(c, s, a) && a.ClaimNext?
    ensures SettledEffect(c, s, Act(c, s, a))
  {
    var n := s.procs[a.p].stage.todo[0];
    assert RowSettled(c, s.hist, s.hooks, n, s.rows[n]);
  }

  lemma LookupSettled(c: Config, s: State, a: Action)
    requires Known(c, s) && Enabled(c, s, a) && a.LookupJob?
    ensures SettledEffect(c, s, Act(c, s, a))
  {
    assert ProcSettled(s.hist, s.hooks, s.procs[a.p]);
  }

  lemma SettleCallbackSettled(c: Config, s: State, a: Action)
    requires Known(c, s) && Enabled(c, s, a) && a.SettleCallback?
    ensures SettledEffect(c, s, Act(c, s, a))
    ensures s.rows[ExternalCall].status == AwaitingCallback
  {
    var x := s.procs[a.p];
    assert ProcFresh(s.rows, x) && ProcOk(c.graph, s.rows, s.hist.everDone, x);
    assert ProcSettled(s.hist, s.hooks, x);
    assert RowSettled(c, s.hist, s.hooks, ExternalCall, s.rows[ExternalCall]);
    if x.hook.completed {
      assert x.hook in s.hooks;
      assert Confirmed(s.hooks, Settled(s.rows[ExternalCall], x.hook));
    }
  }

  lemma ReapSettled(c: Config, s: State, a: Action)
    requires Known(c, s) && Enabled(c, s, a) && a.ReapNext?
    ensures SettledEffect(c, s, Act(c, s, a))
  {
    var x := s.procs[a.p];
    assert ProcFresh(s.rows, x) && ProcOk(c.graph, s.rows, s.hist.everDone, x);
    assert x.selected[0] in x.selected;
    assert RowSettled(c, s.hist, s.hooks, x.selected[0].step, s.rows[x.selected[0].step]);
  }

  lemma ExecuteSettled(c: Config, s: State, a: Action)
    requires Known(c, s) && Enabled(c, s, a)
    requires a.Deliver? || a.LoadDocument? || a.ExecuteOk? || a.ExecuteFail? || a.ReadReady? || a.PublishClaimed?
    ensures SettledEffect(c, s, Act(c, s, a))
  {}

  lemma RecomputeSettled(c: Config, s: State, a: Action)
    requires Known(c, s) && Enabled(c, s, a) && a.RecomputeStep?
    ensures SettledEffect(c, s, Act(c, s, a))
  {
    assert ProcSettled(s.hist, s.hooks, s.procs[a.p]);
  }

  lemma MessageSettled(c: Config, s: State, a: Action)
    requires Known(c, s) && Enabled(c, s, a) && (a.EndClaims? || a.Nack? || a.PublishEntry?)
    ensures SettledEffect(c, s, Act(c, s, a))
  {}

  lemma BreakSettled(c: Config, s: State, a: Action)
    requires Known(c, s) && Enabled(c, s, a) && (a.Crash? || a.Redeliver?)
    ensures SettledEffect(c, s, Act(c, s, a))
  {
    assert ProcSettled(s.hist, s.hooks, s.procs[a.p]);
  }

  lemma ScanSettled(c: Config, s: State, a: Action)
    requires Known(c, s) && Enabled(c, s, a) && (a.ReceiveWebhook? || a.ScanInFlight? || a.ScanCallbacks?)
    ensures SettledEffect(c, s, Act(c, s, a))
  {}

  lemma EndSettled(c: Config, s: State, a: Action)
    requires Enabled(c, s, a) && Ends(a)
    ensures SettledEffect(c, s, Act(c, s, a))
  {
    hide Enabled, Act;
    EndersVanish(c, s, a);
  }

  lemma NextKeepsSettled(c: Config, s: State, a: Action, s': State)
    requires ValidConfig(c) && Known(c, s) && Next(c, s, a, s')
    ensures RowsSettled(c, s')
    ensures RowsAdvance(s.rows, s'.rows)
  {
    ActionSettled(c, s, a);
    ApplyKeepsSettled(c, s, Subject(s, a), Act(c, s, a));
  }

  lemma ActionSettled(c: Config, s: State, a: Action)
    requires ValidConfig(c) && Known(c, s) && Enabled(c, s, a)
    ensures SettledEffect(c, s, Act(c, s, a))
  {
    hide Known, Enabled, Act, SettledEffect;
    if a.MarkRunning? {
      MarkRunningSettled(c, s, a);
    } else if a.FailAttempt? {
      FailAttemptSettled(c, s, a);
    } else if a.Save? {
      SaveSettled(c, s, a);
    } else if a.ClaimNext? {
      ClaimSettled(c, s, a);
    } else if a.LookupJob? {
      LookupSettled(c, s, a);
    } else if a.SettleCallback? {
      SettleCallbackSettled(c, s, a);
    } else if a.ReapNext? {
      ReapSettled(c, s, a);
    } else if a.Deliver? || a.LoadDocument? || a.ExecuteOk? || a.ExecuteFail? || a.ReadReady?
        || a.PublishClaimed? {
      ExecuteSettled(c, s, a);
    } else if a.RecomputeStep? {
      RecomputeSettled(c, s, a);
    } else if a.EndClaims? || a.Nack? || a.PublishEntry? {
      MessageSettled(c, s, a);
    } else if a.Crash? || a.Redeliver? {
      BreakSettled(c, s, a);
    } else if a.ReceiveWebhook? || a.ScanInFlight? || a.ScanCallbacks? {
      ScanSettled(c, s, a);
    } else {
      EndSettled(c, s, a);
    }
  }
}

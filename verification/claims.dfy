/** What holds in every run, with crashes, redeliveries and overlapping deliveries of one step:
    exactly-once claims, and inputs that are always there. */
module Claims {
  import opened Model
  import opened Dag
  import opened Rules
  import opened Protocol

  // ---- the invariant ----

  ghost predicate RowOk(g: Graph, rows: Rows, everDone: set<StepName>, n: StepName)
    requires n in rows
  {
    && (rows[n].status != Pending ==> PredsOf(g, n) <= everDone)
    && (rows[n].status == Pending ==> rows[n].externalJobId == None)
    && (rows[n].status == Done ==> n in everDone)
    && (n in everDone ==> rows[n].status != Pending && rows[n].result.Some?)
    && (rows[n].result.Some? ==> StoredShape(n, rows[n].result.value))
  }

  ghost predicate RowsOk(g: Graph, rows: Rows, everDone: set<StepName>) {
    && rows.Keys == g.preds.Keys
    && everDone <= rows.Keys
    && (forall n :: n in rows ==> RowOk(g, rows, everDone, n))
  }

  /** A row of a loaded snapshot that has left PENDING has the results of its predecessors beside it. */
  ghost predicate Grounded(g: Graph, rows: Rows) {
    forall n, k :: n in rows && rows[n].status != Pending && k in PredsOf(g, n) ==> HasResult(rows, k)
  }

  ghost predicate HasResult(rows: Rows, k: StepName) {
    k in rows && rows[k].status != Pending && rows[k].result.Some? && StoredShape(k, rows[k].result.value)
  }

  ghost predicate CacheOk(g: Graph, rows: Rows, n: StepName, loaded: Rows) {
    && n in rows && n in loaded
    && Grounded(g, loaded)
    && loaded[n].status in {Queued, Running}
    && (loaded[n].result.Some? ==> rows[n].result.Some?)
  }

  ghost predicate TodoOk(g: Graph, rows: Rows, everDone: set<StepName>, todo: seq<StepName>) {
    forall m :: m in todo ==> m in rows && PredsOf(g, m) <= everDone
  }

  ghost predicate LeftPending(rows: Rows, n: StepName) {
    n in rows && rows[n].status != Pending
  }

  ghost predicate StageOk(g: Graph, rows: Rows, everDone: set<StepName>, n: StepName, stage: Stage) {
    match stage
    case Loaded(loaded) => CacheOk(g, rows, n, loaded)
    case Checked(loaded, _) => CacheOk(g, rows, n, loaded)
    case Executing(loaded, _) => CacheOk(g, rows, n, loaded) && loaded[n].status == Running
    case Saving(loaded, _, output) => CacheOk(g, rows, n, loaded) && loaded[n].status == Running && Produces(n, output)
    case Failing(loaded, _) => CacheOk(g, rows, n, loaded) && loaded[n].status == Running
    case Claiming(_, todo) => TodoOk(g, rows, everDone, todo)
    case Publishing(_, m, todo) => LeftPending(rows, m) && TodoOk(g, rows, everDone, todo)
    case _ => true
  }

  function PhaseStatuses(phase: Phase): set<StepStatus> {
    match phase
    case InFlight => {Queued, Running}
    case Callbacks => {AwaitingCallback}
  }

  ghost predicate ProcOk(g: Graph, rows: Rows, everDone: set<StepName>, x: Proc) {
    match x
    case Delivery(n, _, stage) => LeftPending(rows, n) && StageOk(g, rows, everDone, n, stage)
    case Webhook(_, stage) =>
      stage.Deciding? ==>
        && LeftPending(rows, ExternalCall)
        && stage.row.status !in {Done, Error}
        && (stage.row.result.Some? ==> rows[ExternalCall].result.Some?)
    case Reaper(phase, selected, _) =>
      forall sel :: sel in selected ==> LeftPending(rows, sel.step) && sel.row.status in PhaseStatuses(phase)
    case Creator(entries) => forall n :: n in entries ==> LeftPending(rows, n)
  }

  ghost predicate Inv(c: Config, s: State) {
    && RowsOk(c.graph, s.rows, s.hist.everDone)
    && (forall p :: p in s.procs ==> p < s.nextId && ProcOk(c.graph, s.rows, s.hist.everDone, s.procs[p]))
  }

  // ---- rows only move forward ----

  /** What every commit does to the rows, seen from anyone who is not looking at the written row. */
  ghost predicate Evolve(rows: Rows, everDone: set<StepName>, rows': Rows, everDone': set<StepName>) {
    && rows'.Keys == rows.Keys
    && everDone <= everDone'
    && (forall n :: n in rows && rows[n].status != Pending ==> rows'[n].status != Pending)
    && (forall n :: n in rows && rows[n].result.Some? ==> rows'[n].result.Some?)
  }

  lemma ProcOkEvolves(g: Graph, rows: Rows, everDone: set<StepName>, rows': Rows, everDone': set<StepName>, x: Proc)
    requires Evolve(rows, everDone, rows', everDone') && ProcOk(g, rows, everDone, x)
    ensures ProcOk(g, rows', everDone', x)
  {}

  ghost predicate WriteOk(g: Graph, rows: Rows, everDone: set<StepName>, w: RowWrite) {
    w.WriteRow? ==>
      && w.step in rows
      && w.row.status != Pending
      && PredsOf(g, w.step) <= everDone
      && (rows[w.step].result.Some? || w.row.status == Done ==> w.row.result.Some?)
      && (w.row.result.Some? ==> StoredShape(w.step, w.row.result.value))
  }

  lemma WriteEvolves(g: Graph, rows: Rows, everDone: set<StepName>, w: RowWrite, everDone': set<StepName>)
    requires RowsOk(g, rows, everDone) && WriteOk(g, rows, everDone, w)
    requires everDone' == if w.WriteRow? && w.row.status == Done then everDone + {w.step} else everDone
    ensures Evolve(rows, everDone, Rewrite(rows, w), everDone')
    ensures RowsOk(g, Rewrite(rows, w), everDone')
  {
    var rows' := Rewrite(rows, w);
    forall n | n in rows' ensures RowOk(g, rows', everDone', n) {
      assert RowOk(g, rows, everDone, n);
    }
  }

  /** What each action has to establish about its own effect. */
  ghost predicate EffectOk(c: Config, s: State, e: Effect) {
    var rows' := Rewrite(s.rows, e.write);
    var everDone' := Remember(s.hist, e).everDone;
    && WriteOk(c.graph, s.rows, s.hist.everDone, e.write)
    && (e.self.Some? ==> ProcOk(c.graph, rows', everDone', e.self.value))
    && (e.spawn.Some? ==> ProcOk(c.graph, rows', everDone', e.spawn.value))
  }

  lemma ApplyKeepsInv(c: Config, s: State, p: nat, e: Effect)
    requires Inv(c, s) && (p in s.procs || (p == s.nextId && e.self == None)) && EffectOk(c, s, e)
    ensures Inv(c, Apply(s, p, e))
    ensures var s' := Apply(s, p, e); Evolve(s.rows, s.hist.everDone, s'.rows, s'.hist.everDone)
  {
    var s' := Apply(s, p, e);
    WriteEvolves(c.graph, s.rows, s.hist.everDone, e.write, s'.hist.everDone);
    forall q | q in s'.procs
      ensures q < s'.nextId && ProcOk(c.graph, s'.rows, s'.hist.everDone, s'.procs[q])
    {
      if q in s.procs && s'.procs[q] == s.procs[q] {
        ProcOkEvolves(c.graph, s.rows, s.hist.everDone, s'.rows, s'.hist.everDone, s.procs[q]);
      }
    }
  }

  // ---- each action ----

  lemma SnapshotIsGrounded(g: Graph, rows: Rows, everDone: set<StepName>)
    requires RowsOk(g, rows, everDone)
    ensures Grounded(g, rows)
  {
    forall n, k | n in rows && rows[n].status != Pending && k in PredsOf(g, n) ensures HasResult(rows, k) {
      assert RowOk(g, rows, everDone, n);
      assert k in rows && RowOk(g, rows, everDone, k);
    }
  }

  lemma GroundedAfterRunning(g: Graph, loaded: Rows, n: StepName)
    requires Grounded(g, loaded) && n in loaded && loaded[n].status in {Queued, Running}
    ensures Grounded(g, loaded[n := loaded[n].(status := Running)])
  {
    var after := loaded[n := loaded[n].(status := Running)];
    forall m, k | m in after && after[m].status != Pending && k in PredsOf(g, m) ensures HasResult(after, k) {
      assert HasResult(loaded, k);
    }
  }

  lemma DeliverOk(c: Config, s: State, a: Action)
    requires Inv(c, s) && Enabled(c, s, a) && a.Deliver?
    ensures EffectOk(c, s, Act(c, s, a))
  {
    SnapshotIsGrounded(c.graph, s.rows, s.hist.everDone);
  }

  lemma MarkRunningOk(c: Config, s: State, a: Action)
    requires Inv(c, s) && Enabled(c, s, a) && a.MarkRunning?
    ensures EffectOk(c, s, Act(c, s, a))
  {
    var x := s.procs[a.p];
    assert RowOk(c.graph, s.rows, s.hist.everDone, x.step);
    GroundedAfterRunning(c.graph, x.stage.rows, x.step);
  }

  lemma SaveOk(c: Config, s: State, a: Action)
    requires Inv(c, s) && Enabled(c, s, a) && (a.Save? || a.FailAttempt?)
    ensures EffectOk(c, s, Act(c, s, a))
  {
    if a.Save? {
      SaveEffectOk(c, s, a.p);
    } else {
      FailEffectOk(c, s, a.p);
    }
  }

  lemma SaveEffectOk(c: Config, s: State, p: nat)
    requires Inv(c, s) && HandlerAt(s, p) && s.procs[p].stage.Saving? && s.procs[p].step in s.procs[p].stage.rows
    ensures EffectOk(c, s, SaveEffect(s.rows[s.procs[p].step], s.procs[p]))
  {
    assert RowOk(c.graph, s.rows, s.hist.everDone, s.procs[p].step);
  }

  lemma FailEffectOk(c: Config, s: State, p: nat)
    requires Inv(c, s) && HandlerAt(s, p) && s.procs[p].stage.Failing? && s.procs[p].step in s.procs[p].stage.rows
    ensures EffectOk(c, s, FailAttemptEffect(s.rows[s.procs[p].step], s.procs[p], c.maxAttempts))
  {
    assert RowOk(c.graph, s.rows, s.hist.everDone, s.procs[p].step);
  }

  lemma ReadReadyOk(c: Config, s: State, a: Action)
    requires Inv(c, s) && Enabled(c, s, a) && a.ReadReady?
    requires ValidConfig(c)
    ensures EffectOk(c, s, Act(c, s, a))
  {
    forall m | m in ReadySuccessors(c.graph, DoneSet(s.rows))
      ensures m in s.rows && PredsOf(c.graph, m) <= s.hist.everDone
    {
      forall k | k in PredsOf(c.graph, m) ensures k in s.hist.everDone {
        assert k in DoneSet(s.rows);
        assert RowOk(c.graph, s.rows, s.hist.everDone, k);
      }
    }
  }

  lemma ClaimNextOk(c: Config, s: State, a: Action)
    requires Inv(c, s) && Enabled(c, s, a) && a.ClaimNext?
    ensures EffectOk(c, s, Act(c, s, a))
  {
    var x := s.procs[a.p];
    var n := x.stage.todo[0];
    assert n in x.stage.todo;
    assert RowOk(c.graph, s.rows, s.hist.everDone, n);
    forall m | m in x.stage.todo[1..] ensures m in x.stage.todo {}
  }

  lemma SettleOk(c: Config, s: State, a: Action)
    requires Inv(c, s) && Enabled(c, s, a) && (a.LookupJob? || a.SettleCallback?)
    ensures EffectOk(c, s, Act(c, s, a))
  {
    assert RowOk(c.graph, s.rows, s.hist.everDone, ExternalCall);
  }

  lemma SelectionMembers(rows: Rows, picked: seq<StepName>)
    requires forall n :: n in picked ==> n in rows
    ensures forall sel :: sel in Selection(rows, picked) ==> sel.step in picked && sel.row == rows[sel.step]
  {}

  lemma ReaperOk(c: Config, s: State, a: Action)
    requires Inv(c, s) && Enabled(c, s, a) && (a.ScanInFlight? || a.ScanCallbacks?)
    ensures EffectOk(c, s, Act(c, s, a))
  {
    SelectionMembers(s.rows, a.picked);
  }

  lemma ReapNextOk(c: Config, s: State, a: Action)
    requires Inv(c, s) && Enabled(c, s, a) && a.ReapNext?
    ensures EffectOk(c, s, Act(c, s, a))
  {
    var x := s.procs[a.p];
    var sel := x.selected[0];
    assert sel in x.selected;
    assert RowOk(c.graph, s.rows, s.hist.everDone, sel.step);
    forall other | other in x.selected[1..] ensures other in x.selected {}
  }

  lemma CreatorOk(c: Config, s: State, a: Action)
    requires Inv(c, s) && Enabled(c, s, a) && a.PublishEntry?
    ensures EffectOk(c, s, Act(c, s, a))
  {
    var entries := s.procs[a.p].entries;
    assert entries[0] in entries;
    forall n | n in entries[1..] ensures n in entries {}
  }

  lemma HandlerMoveOk(c: Config, s: State, a: Action)
    requires Inv(c, s) && Enabled(c, s, a)
    requires a.LoadDocument? || a.ExecuteOk? || a.ExecuteFail? || a.EndClaims? || a.Nack?
    ensures EffectOk(c, s, Act(c, s, a))
  {}

  lemma PublishClaimedOk(c: Config, s: State, a: Action)
    requires Inv(c, s) && Enabled(c, s, a) && a.PublishClaimed?
    ensures EffectOk(c, s, Act(c, s, a))
  {}

  lemma RecomputeOk(c: Config, s: State, a: Action)
    requires Inv(c, s) && Enabled(c, s, a) && a.RecomputeStep?
    ensures EffectOk(c, s, Act(c, s, a))
  {}

  lemma EndOk(c: Config, s: State, a: Action)
    requires Inv(c, s) && Enabled(c, s, a)
    requires a.Ack? || a.DeadLetter? || a.ReceiveWebhook? || a.EndReap? || a.EndCreate? || a.Crash? || a.Drop?
    ensures EffectOk(c, s, Act(c, s, a))
  {}

  lemma RedeliverOk(c: Config, s: State, a: Action)
    requires Inv(c, s) && Enabled(c, s, a) && a.Redeliver?
    ensures EffectOk(c, s, Act(c, s, a))
  {
    assert ProcOk(c.graph, s.rows, s.hist.everDone, s.procs[a.p]);
  }

  lemma ActionOk(c: Config, s: State, a: Action)
    requires ValidConfig(c) && Inv(c, s) && Enabled(c, s, a)
    ensures EffectOk(c, s, Act(c, s, a))
  {
    hide ValidConfig, Inv, Enabled, Act, EffectOk;
    if a.Deliver? {
      DeliverOk(c, s, a);
    } else if a.MarkRunning? {
      MarkRunningOk(c, s, a);
    } else if a.Save? || a.FailAttempt? {
      SaveOk(c, s, a);
    } else if a.ReadReady? {
      ReadReadyOk(c, s, a);
    } else if a.ClaimNext? {
      ClaimNextOk(c, s, a);
    } else if a.LookupJob? || a.SettleCallback? {
      SettleOk(c, s, a);
    } else if a.ScanInFlight? || a.ScanCallbacks? {
      ReaperOk(c, s, a);
    } else if a.ReapNext? {
      ReapNextOk(c, s, a);
    } else if a.PublishEntry? {
      CreatorOk(c, s, a);
    } else if a.LoadDocument? || a.ExecuteOk? || a.ExecuteFail? || a.EndClaims? || a.Nack? {
      HandlerMoveOk(c, s, a);
    } else if a.PublishClaimed? {
      PublishClaimedOk(c, s, a);
    } else if a.RecomputeStep? {
      RecomputeOk(c, s, a);
    } else if a.Redeliver? {
      RedeliverOk(c, s, a);
    } else {
      EndOk(c, s, a);
    }
  }

  lemma NextKeepsInv(c: Config, s: State, a: Action, s': State)
    requires ValidConfig(c) && Inv(c, s) && Next(c, s, a, s')
    ensures Inv(c, s') && Evolve(s.rows, s.hist.everDone, s'.rows, s'.hist.everDone)
  {
    ActionOk(c, s, a);
    ApplyKeepsInv(c, s, Subject(s, a), Act(c, s, a));
  }

  lemma InitialInv(c: Config)
    requires ValidConfig(c)
    ensures Inv(c, Initial(c))
  {
    var s := Initial(c);
    forall n | n in s.rows ensures RowOk(c.graph, s.rows, {}, n) {
      InitialRowOk(c, n);
    }
    InitialCreatorOk(c);
  }

  lemma InitialRowOk(c: Config, n: StepName)
    requires ValidConfig(c) && n in Initial(c).rows
    ensures RowOk(c.graph, Initial(c).rows, {}, n)
  {
    assert n in c.graph.nodes;
  }

  lemma InitialCreatorOk(c: Config)
    requires ValidConfig(c)
    ensures forall p :: p in Initial(c).procs ==> p < 1 && ProcOk(c.graph, Initial(c).rows, {}, Initial(c).procs[p])
  {
    assert forall n :: n in EntryNodes(c.graph) ==> n in c.graph.nodes;
  }

  lemma RunStartsInv(c: Config, r: Run)
    requires ValidConfig(c) && IsRun(c, r)
    ensures Inv(c, r.states[0])
  {
    InitialInv(c);
  }

  lemma RunInv(c: Config, r: Run, i: nat)
    requires ValidConfig(c) && IsRun(c, r) && i < |r.states|
    ensures Inv(c, r.states[i])
  {
    var P := (s: State) => Inv(c, s);
    RunStartsInv(c, r);
    forall k {:trigger Keeps(r, P, k)} | 0 <= k < |r.states| - 1 ensures Keeps(r, P, k) {
      if P(r.states[k]) {
        StepKeepsInv(c, r, k);
      }
    }
    Induct(r, P, 0, i);
  }

  lemma StepKeepsInv(c: Config, r: Run, i: nat)
    requires ValidConfig(c) && IsRun(c, r) && i < |r.actions| && Inv(c, r.states[i])
    ensures Inv(c, r.states[i+1])
    ensures Evolve(r.states[i].rows, r.states[i].hist.everDone, r.states[i+1].rows, r.states[i+1].hist.everDone)
  {
    StepOf(c, r, i);
    NextKeepsInv(c, r.states[i], r.actions[i], r.states[i+1]);
  }

  /** The rows that a handler between its load and its commit works on. */
  function CopyIn(stage: Stage): Option<Rows> {
    match stage
    case Loaded(rows) => Some(rows)
    case Checked(rows, _) => Some(rows)
    case Executing(rows, _) => Some(rows)
    case Saving(rows, _, _) => Some(rows)
    case Failing(rows, _) => Some(rows)
    case _ => None
  }

  // ---- who writes rows ----

  predicate HandlerCommits(a: Action) {
    a.MarkRunning? || a.Save? || a.FailAttempt?
  }

  predicate Commits(a: Action) {
    HandlerCommits(a) || a.ClaimNext? || a.SettleCallback? || a.ReapNext?
  }

  lemma OthersWriteNothing(c: Config, s: State, a: Action)
    requires Enabled(c, s, a) && !Commits(a)
    ensures Act(c, s, a).write == NoWrite
  {}

  predicate Ends(a: Action) {
    a.Ack? || a.DeadLetter? || a.EndReap? || a.EndCreate? || a.Drop?
  }

  /** These actions only take their process away. */
  lemma EndersVanish(c: Config, s: State, a: Action)
    requires Enabled(c, s, a) && Ends(a)
    ensures var e := Act(c, s, a);
      e.self == None && e.spawn == None && e.write == NoWrite && e.doc == None && e.emit == None && e.hook == None
          && e.issue == None
  {}

  // ---- exactly-once claims ----

  function PublishingOf(x: Proc): Option<StepName> {
    if x.Delivery? && x.stage.Publishing? then Some(x.stage.claimed) else None
  }

  ghost predicate CountsOk(s: State, n: StepName) {
    && s.hist.notes[Triggered(n)] <= s.hist.notes[Claimed(n)] <= 1
    && (!LeftPending(s.rows, n) ==> s.hist.notes[Claimed(n)] == 0)
  }

  ghost predicate PublisherOk(s: State, p: nat, n: StepName)
    requires p in s.procs
  {
    PublishingOf(s.procs[p]) == Some(n) ==>
      && s.hist.notes[Claimed(n)] == 1 && s.hist.notes[Triggered(n)] == 0
      && forall q :: q in s.procs && PublishingOf(s.procs[q]) == Some(n) ==> q == p
  }

  ghost predicate ClaimInv(s: State) {
    && (forall n :: CountsOk(s, n))
    && (forall p, n :: p in s.procs ==> PublisherOk(s, p, n))
  }

  lemma OtherActionsDoNotClaim(c: Config, s: State, a: Action)
    requires Enabled(c, s, a) && !a.ClaimNext? && !a.PublishClaimed?
    ensures var e := Act(c, s, a);
      && !e.note.Claimed? && !e.note.Triggered? && KeepsPublishing(s, Subject(s, a), e)
  {}

  /** Nobody starts publishing. */
  ghost predicate KeepsPublishing(s: State, p: nat, e: Effect) {
    && (e.self.Some? && PublishingOf(e.self.value).Some? ==> p in s.procs && e.self.value == s.procs[p])
    && (e.spawn.Some? ==> PublishingOf(e.spawn.value) == None)
  }

  lemma QuietKeepsClaimInv(s: State, p: nat, e: Effect)
    requires ClaimInv(s) && !e.note.Claimed? && !e.note.Triggered? && KeepsPublishing(s, p, e)
    requires forall n :: LeftPending(s.rows, n) ==> LeftPending(Apply(s, p, e).rows, n)
    ensures ClaimInv(Apply(s, p, e))
  {
    var s' := Apply(s, p, e);
    forall n ensures CountsOk(s', n) {
      assert CountsOk(s, n);
    }
    forall q, n | q in s'.procs ensures PublisherOk(s', q, n) {
      if PublishingOf(s'.procs[q]) == Some(n) {
        assert q in s.procs && PublisherOk(s, q, n);
      }
    }
  }

  lemma ClaimNextKeepsClaimInv(c: Config, s: State, a: Action)
    requires Enabled(c, s, a) && a.ClaimNext? && ClaimInv(s)
    ensures ClaimInv(Apply(s, a.p, Act(c, s, a)))
  {
    var s' := Apply(s, a.p, Act(c, s, a));
    var m := s.procs[a.p].stage.todo[0];
    assert CountsOk(s, m);
    if s.rows[m].status == Pending {
      forall q | q in s.procs ensures PublishingOf(s.procs[q]) != Some(m) {
        assert PublisherOk(s, q, m);
      }
    }
    forall n ensures CountsOk(s', n) {
      assert CountsOk(s, n);
    }
    forall q, n | q in s'.procs ensures PublisherOk(s', q, n) {
      assert q in s.procs && PublisherOk(s, q, n);
    }
  }

  lemma PublishKeepsClaimInv(c: Config, s: State, a: Action)
    requires Enabled(c, s, a) && a.PublishClaimed? && ClaimInv(s)
    ensures ClaimInv(Apply(s, a.p, Act(c, s, a)))
  {
    var s' := Apply(s, a.p, Act(c, s, a));
    var m := s.procs[a.p].stage.claimed;
    assert PublisherOk(s, a.p, m);
    forall n ensures CountsOk(s', n) {
      assert CountsOk(s, n);
    }
    forall q, n | q in s'.procs ensures PublisherOk(s', q, n) {
      if PublishingOf(s'.procs[q]) == Some(n) {
        assert q in s.procs && PublisherOk(s, q, n);
      }
    }
  }

  lemma StepKeepsClaimInv(c: Config, r: Run, i: nat)
    requires ValidConfig(c) && IsRun(c, r) && i < |r.actions| && Inv(c, r.states[i]) && ClaimInv(r.states[i])
    ensures ClaimInv(r.states[i+1])
  {
    StepOf(c, r, i);
    StepKeepsInv(c, r, i);
    NextKeepsClaimInv(c, r.states[i], r.actions[i], r.states[i+1]);
  }

  lemma NextKeepsClaimInv(c: Config, s: State, a: Action, s': State)
    requires Next(c, s, a, s') && ClaimInv(s)
    requires Evolve(s.rows, s.hist.everDone, s'.rows, s'.hist.everDone)
    ensures ClaimInv(s')
  {
    if a.ClaimNext? {
      ClaimNextKeepsClaimInv(c, s, a);
    } else if a.PublishClaimed? {
      PublishKeepsClaimInv(c, s, a);
    } else {
      OtherActionsDoNotClaim(c, s, a);
      QuietKeepsClaimInv(s, Subject(s, a), Act(c, s, a));
    }
  }

  lemma InitialClaimInv(c: Config)
    ensures ClaimInv(Initial(c))
  {}

  /** In any run each step is claimed at most once and published by `trigger_successors` at most once. */
  lemma ClaimedAtMostOnce(c: Config, r: Run, i: nat, n: StepName)
    requires ValidConfig(c) && IsRun(c, r) && i < |r.states|
    ensures r.states[i].hist.notes[Triggered(n)] <= r.states[i].hist.notes[Claimed(n)] <= 1
  {
    var P := (s: State) => ClaimInv(s);
    InitialClaimInv(c);
    forall k {:trigger Keeps(r, P, k)} | 0 <= k < |r.states| - 1 ensures Keeps(r, P, k) {
      if P(r.states[k]) {
        RunInv(c, r, k);
        StepKeepsClaimInv(c, r, k);
      }
    }
    Induct(r, P, 0, i);
    assert CountsOk(r.states[i], n);
  }

  /** A step that has left PENDING never comes back to it. */
  lemma LeftPendingForGood(c: Config, r: Run, i: nat, j: nat, n: StepName)
    requires ValidConfig(c) && IsRun(c, r) && i <= j < |r.states| && LeftPending(r.states[i].rows, n)
    ensures LeftPending(r.states[j].rows, n)
  {
    var P := (s: State) => LeftPending(s.rows, n);
    forall k {:trigger Keeps(r, P, k)} | i <= k < |r.states| - 1 ensures Keeps(r, P, k) {
      RunInv(c, r, k);
      StepKeepsInv(c, r, k);
    }
    Induct(r, P, i, j);
  }

  /** Only a claim takes a step out of PENDING, so it happens at most once in a run. */
  lemma OnlyClaimsLeavePending(c: Config, r: Run, i: nat, n: StepName)
    requires ValidConfig(c) && IsRun(c, r) && i < |r.actions|
    requires n in r.states[i].rows && r.states[i].rows[n].status == Pending && LeftPending(r.states[i+1].rows, n)
    ensures r.actions[i].ClaimNext?
    ensures r.states[i+1].rows[n].status == Queued
    ensures r.states[i+1].hist.notes[Claimed(n)] == r.states[i].hist.notes[Claimed(n)] + 1
  {
    RunInv(c, r, i);
    StepOf(c, r, i);
    PendingRowsAreClaimed(c, r.states[i], r.actions[i], n);
  }

  lemma PendingRowsAreClaimed(c: Config, s: State, a: Action, n: StepName)
    requires Inv(c, s) && Enabled(c, s, a) && n in s.rows && s.rows[n].status == Pending
    ensures var e := Act(c, s, a);
      e.write.WriteRow? && e.write.step == n ==> a.ClaimNext? && e.write.row.status == Queued && e.note == Claimed(n)
  {
    if HandlerCommits(a) {
      HandlersLeavePendingAlone(c, s, a, n);
    } else if a.ReapNext? {
      ReapersLeavePendingAlone(c, s, a, n);
    } else if a.SettleCallback? || a.ClaimNext? {
      ClaimsTakePending(c, s, a, n);
    } else {
      OthersWriteNothing(c, s, a);
    }
  }

  lemma HandlersLeavePendingAlone(c: Config, s: State, a: Action, n: StepName)
    requires Inv(c, s) && Enabled(c, s, a) && HandlerCommits(a) && n in s.rows && s.rows[n].status == Pending
    ensures var w := Act(c, s, a).write; w.WriteRow? ==> w.step != n
  {}

  lemma ReapersLeavePendingAlone(c: Config, s: State, a: Action, n: StepName)
    requires Inv(c, s) && Enabled(c, s, a) && a.ReapNext? && n in s.rows && s.rows[n].status == Pending
    ensures var w := Act(c, s, a).write; w.WriteRow? ==> w.step != n
  {
    assert s.procs[a.p].selected[0] in s.procs[a.p].selected;
  }

  lemma ClaimsTakePending(c: Config, s: State, a: Action, n: StepName)
    requires Inv(c, s) && Enabled(c, s, a) && (a.SettleCallback? || a.ClaimNext?) && n in s.rows
        && s.rows[n].status == Pending
    ensures var e := Act(c, s, a);
      e.write.WriteRow? && e.write.step == n ==> a.ClaimNext? && e.write.row.status == Queued && e.note == Claimed(n)
  {}

  /** No message, and no handler, ever exists for a step that is still PENDING. */
  lemma NoMessageForPending(c: Config, r: Run, i: nat, p: nat)
    requires ValidConfig(c) && IsRun(c, r) && i < |r.states|
    requires p in r.states[i].procs && r.states[i].procs[p].Delivery?
    ensures LeftPending(r.states[i].rows, r.states[i].procs[p].step)
  {
    RunInv(c, r, i);
  }

  // ---- job ids come from the partner ----

  predicate SavesIssued(issued: set<JobId>, x: Proc) {
    x.Delivery? && x.stage.Saving? && x.stage.output.JobHandle? ==> x.stage.output.job in issued
  }

  predicate RowIssued(issued: set<JobId>, row: Row) {
    row.externalJobId.Some? ==> row.externalJobId.value in issued
  }

  /** Every job id that is stored, or about to be, was handed out. */
  ghost predicate JobsIssued(s: State) {
    && (forall n :: n in s.rows ==> RowIssued(s.hist.issued, s.rows[n]))
    && (forall p :: p in s.procs ==> SavesIssued(s.hist.issued, s.procs[p]))
  }

  ghost predicate IssuedEffect(s: State, e: Effect) {
    var issued := Remember(s.hist, e).issued;
    && (e.write.WriteRow? ==> RowIssued(issued, e.write.row))
    && (e.self.Some? ==> SavesIssued(issued, e.self.value))
    && (e.spawn.Some? ==> SavesIssued(issued, e.spawn.value))
  }

  lemma ApplyKeepsJobsIssued(s: State, p: nat, e: Effect)
    requires JobsIssued(s) && IssuedEffect(s, e)
    ensures JobsIssued(Apply(s, p, e))
  {
    var s' := Apply(s, p, e);
    forall n | n in s'.rows ensures RowIssued(s'.hist.issued, s'.rows[n]) {
      assert n in s.rows ==> RowIssued(s.hist.issued, s.rows[n]);
    }
    forall q | q in s'.procs ensures SavesIssued(s'.hist.issued, s'.procs[q]) {
      assert q in s.procs ==> SavesIssued(s.hist.issued, s.procs[q]);
    }
  }

  lemma CommitsIssued(c: Config, s: State, a: Action)
    requires JobsIssued(s) && Enabled(c, s, a) && Commits(a)
    ensures IssuedEffect(s, Act(c, s, a))
  {
    assert SavesIssued(s.hist.issued, s.procs[a.p]);
  }

  lemma MovesIssued(c: Config, s: State, a: Action)
    requires JobsIssued(s) && Enabled(c, s, a) && !Commits(a) && !Ends(a) && !a.RecomputeStep?
    ensures IssuedEffect(s, Act(c, s, a))
  {}

  lemma RecomputeIssued(c: Config, s: State, a: Action)
    requires JobsIssued(s) && Enabled(c, s, a) && a.RecomputeStep?
    ensures IssuedEffect(s, Act(c, s, a))
  {
    hide DeriveDocumentStatus;
  }

  lemma NextKeepsJobsIssued(c: Config, s: State, a: Action, s': State)
    requires JobsIssued(s) && Next(c, s, a, s')
    ensures JobsIssued(s')
  {
    hide JobsIssued, Enabled, Act;
    if Commits(a) {
      CommitsIssued(c, s, a);
    } else if Ends(a) {
      EndersVanish(c, s, a);
    } else if a.RecomputeStep? {
      RecomputeIssued(c, s, a);
    } else {
      MovesIssued(c, s, a);
    }
    ApplyKeepsJobsIssued(s, Subject(s, a), Act(c, s, a));
  }

  lemma InitialJobsIssued(c: Config)
    ensures JobsIssued(Initial(c))
  {}

  /** In any run a stored job id is one that the partner handed out to this document. */
  lemma StoredJobsWereIssued(c: Config, r: Run, i: nat)
    requires IsRun(c, r) && i < |r.states|
    ensures JobsIssued(r.states[i])
  {
    var P := (s: State) => JobsIssued(s);
    InitialJobsIssued(c);
    forall k {:trigger Keeps(r, P, k)} | 0 <= k < |r.states| - 1 ensures Keeps(r, P, k) {
      if P(r.states[k]) {
        StepOf(c, r, k);
        NextKeepsJobsIssued(c, r.states[k], r.actions[k], r.states[k+1]);
      }
    }
    Induct(r, P, 0, i);
  }

  // ---- ancestors first ----

  lemma EverDoneStep(c: Config, s: State, a: Action, s': State, m: StepName)
    requires Next(c, s, a, s') && m in s'.hist.everDone
    ensures m in s.hist.everDone || (m in s'.rows && s'.rows[m].status == Done)
  {}

  lemma {:induction false} EverDoneWhen(c: Config, r: Run, i: nat, m: StepName) returns (k: nat)
    requires IsRun(c, r) && i < |r.states| && m in r.states[i].hist.everDone
    ensures k <= i && m in r.states[k].rows && r.states[k].rows[m].status == Done
  {
    assert i > 0;
    StepOf(c, r, i - 1);
    EverDoneStep(c, r.states[i-1], r.actions[i-1], r.states[i], m);
    if m in r.states[i-1].hist.everDone {
      k := EverDoneWhen(c, r, i - 1, m);
    } else {
      k := i;
    }
  }

  lemma {:induction false} WalkWasDone(g: Graph, rows: Rows, everDone: set<StepName>, w: seq<StepName>, i: nat)
    requires RowsOk(g, rows, everDone) && IsWalk(g, w) && i < |w| - 1
    requires LeftPending(rows, w[|w|-1])
    ensures w[i] in everDone
    decreases |w| - i
  {
    var n := w[i+1];
    if i + 1 < |w| - 1 {
      WalkWasDone(g, rows, everDone, w, i + 1);
    }
    assert n in rows && RowOk(g, rows, everDone, n);
    assert EdgeAt(g, w, i);
  }

  /** When a step has left PENDING, each of its ancestors has been committed DONE before. */
  lemma AncestorsWereDone(c: Config, r: Run, i: nat, a: StepName, n: StepName)
    requires ValidConfig(c) && IsRun(c, r) && i < |r.states|
    requires LeftPending(r.states[i].rows, n) && Ancestor(c.graph, a, n)
    ensures exists k :: 0 <= k <= i && a in r.states[k].rows && r.states[k].rows[a].status == Done
  {
    RunInv(c, r, i);
    var w :| |w| >= 2 && IsWalk(c.graph, w) && w[0] == a && w[|w|-1] == n;
    WalkWasDone(c.graph, r.states[i].rows, r.states[i].hist.everDone, w, 0);
    var k := EverDoneWhen(c, r, i, a);
  }

  // ---- inputs are always there ----

  /** Every result a handler indexes belongs to an ancestor of its step. */
  ghost predicate InputsAreAncestors(g: Graph) {
    forall n, k :: n in g.nodes && k in InputsOf(n) ==> Ancestor(g, k, n)
  }

  lemma {:induction false} GroundedAlongWalk(g: Graph, rows: Rows, w: seq<StepName>, i: nat)
    requires Grounded(g, rows) && IsWalk(g, w) && i < |w| - 1 && LeftPending(rows, w[|w|-1])
    ensures HasResult(rows, w[i])
    decreases |w| - i
  {
    if i + 1 < |w| - 1 {
      GroundedAlongWalk(g, rows, w, i + 1);
    }
    assert EdgeAt(g, w, i);
  }

  lemma GroundedAncestors(g: Graph, rows: Rows, a: StepName, n: StepName)
    requires Grounded(g, rows) && LeftPending(rows, n) && Ancestor(g, a, n)
    ensures HasResult(rows, a)
  {
    var w :| |w| >= 2 && IsWalk(g, w) && w[0] == a && w[|w|-1] == n;
    GroundedAlongWalk(g, rows, w, 0);
  }

  /** Whenever a handler is about to execute its step, `transform_input` finds every result it indexes. */
  lemma InputsAreThere(c: Config, r: Run, i: nat, p: nat)
    requires ValidConfig(c) && IsRun(c, r) && i < |r.states| && InputsAreAncestors(c.graph)
    requires p in r.states[i].procs && r.states[i].procs[p].Delivery? && r.states[i].procs[p].stage.Executing?
    ensures var x := r.states[i].procs[p];
      && (forall k :: k in InputsOf(x.step) ==> HasResult(x.stage.rows, k))
      && TransformInput(x.step, x.stage.rows).Some?
  {
    RunInv(c, r, i);
    ExecutingHasInputs(c, r.states[i], r.states[i].procs[p]);
  }

  lemma ExecutingHasInputs(c: Config, s: State, x: Proc)
    requires ValidConfig(c) && Inv(c, s) && InputsAreAncestors(c.graph)
    requires (exists p :: p in s.procs && s.procs[p] == x) && x.Delivery? && x.stage.Executing?
    ensures forall k :: k in InputsOf(x.step) ==> HasResult(x.stage.rows, k)
    ensures TransformInput(x.step, x.stage.rows).Some?
  {
    assert ProcOk(c.graph, s.rows, s.hist.everDone, x);
    assert x.step in c.graph.nodes;
    CachedInputs(c.graph, x.step, x.stage.rows);
  }

  lemma CachedInputs(g: Graph, n: StepName, loaded: Rows)
    requires InputsAreAncestors(g) && n in g.nodes && Grounded(g, loaded) && LeftPending(loaded, n)
    ensures forall k :: k in InputsOf(n) ==> HasResult(loaded, k)
    ensures TransformInput(n, loaded).Some?
  {
    forall k | k in InputsOf(n) ensures HasResult(loaded, k) {
      GroundedAncestors(g, loaded, k, n);
    }
    assert Ocr in InputsOf(n) ==> HasResult(loaded, Ocr);
    assert Metadata in InputsOf(n) ==> HasResult(loaded, Metadata);
    assert Chunking in InputsOf(n) ==> HasResult(loaded, Chunking);
  }

  lemma EdgeIsAncestor(g: Graph, a: StepName, b: StepName)
    requires a in PredsOf(g, b)
    ensures Ancestor(g, a, b)
  {
    var w := [a, b];
    assert EdgeAt(g, w, 0);
    assert IsWalk(g, w) && w[0] == a && w[|w|-1] == b;
  }

  /** The shipped graph qualifies: external_call reads ocr although it is not a direct predecessor. */
  lemma PipelineInputsAreAncestors()
    ensures InputsAreAncestors(PIPELINE)
  {
    PipelineEdges();
    OcrFeedsTheCall();
  }

  lemma PipelineConfigIsValid(maxAttempts: nat)
    requires maxAttempts >= 1
    ensures ValidConfig(Config(PIPELINE, maxAttempts))
  {
    PipelineIsValid();
  }

  lemma PipelineEdges()
    ensures Ancestor(PIPELINE, Ocr, Metadata) && Ancestor(PIPELINE, Ocr, Chunking)
    ensures Ancestor(PIPELINE, Metadata, ExternalCall) && Ancestor(PIPELINE, Chunking, ExternalCall)
  {
    EdgeIsAncestor(PIPELINE, Ocr, Metadata);
    EdgeIsAncestor(PIPELINE, Ocr, Chunking);
    EdgeIsAncestor(PIPELINE, Metadata, ExternalCall);
    EdgeIsAncestor(PIPELINE, Chunking, ExternalCall);
  }

  lemma OcrFeedsTheCall()
    ensures Ancestor(PIPELINE, Ocr, ExternalCall)
  {
    var w := [Ocr, Metadata, ExternalCall];
    assert EdgeAt(PIPELINE, w, 0) && EdgeAt(PIPELINE, w, 1);
    assert IsWalk(PIPELINE, w) && w[0] == Ocr && w[|w|-1] == ExternalCall;
  }
}

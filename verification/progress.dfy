/** What crash-free runs add: nothing is stranded, retries are bounded, the stored status catches up. */
module Progress {
  import opened Model
  import opened Dag
  import opened Rules
  import opened Protocol
  import opened Claims
  import opened NoOverlaps
  import opened Status
  import opened Outcomes

  /** No process dies, no handler raises, no clean-up of a session does, and no worker loses its connection. */
  ghost predicate CrashFree(r: Run) {
    forall i :: 0 <= i < |r.actions| ==> !r.actions[i].Crash? && !r.actions[i].Drop? && !r.actions[i].Redeliver?
  }

  // ---- retries ----

  /** A message comes back at most once for each attempt recorded on its row, and attempts run out first. */
  ghost predicate RetryOk(c: Config, rows: Rows, x: Proc) {
    x.Delivery? ==>
      && x.step in rows
      && x.returned < c.maxAttempts && x.returned <= rows[x.step].attempts
      && (x.stage.Nacking? ==> x.returned + 1 < c.maxAttempts && x.returned + 1 <= rows[x.step].attempts)
  }

  ghost predicate RetryInv(c: Config, s: State) {
    forall p :: p in s.procs ==> RetryOk(c, s.rows, s.procs[p])
  }

  lemma RetryStays(c: Config, rows: Rows, rows': Rows, x: Proc)
    requires RetryOk(c, rows, x) && RowsAdvance(rows, rows')
    ensures RetryOk(c, rows', x)
  {
    if x.Delivery? {
      assert RowAdvances(rows[x.step], rows'[x.step]);
    }
  }

  ghost predicate RetryEffect(c: Config, s: State, e: Effect) {
    var rows' := Rewrite(s.rows, e.write);
    (e.self.Some? ==> RetryOk(c, rows', e.self.value)) && (e.spawn.Some? ==> RetryOk(c, rows', e.spawn.value))
  }

  lemma ApplyKeepsRetry(c: Config, s: State, p: nat, e: Effect)
    requires RetryInv(c, s) && RetryEffect(c, s, e) && RowsAdvance(s.rows, Rewrite(s.rows, e.write))
    ensures RetryInv(c, Apply(s, p, e))
  {
    var s' := Apply(s, p, e);
    forall q | q in s'.procs ensures RetryOk(c, s'.rows, s'.procs[q]) {
      if q in s.procs && s'.procs[q] == s.procs[q] {
        RetryStays(c, s.rows, s'.rows, s.procs[q]);
      }
    }
  }

  lemma FailAttemptRetry(c: Config, s: State, a: Action)
    requires Fresh(s) && RetryInv(c, s) && Enabled(c, s, a) && a.FailAttempt?
    ensures RetryEffect(c, s, Act(c, s, a))
  {
    assert ProcFresh(s.rows, s.procs[a.p]);
    FlushOfFresh(s.rows[s.procs[a.p].step], FailedOnce(s.rows[s.procs[a.p].step], c.maxAttempts));
  }

  lemma HandlerRetry(c: Config, s: State, a: Action)
    requires RetryInv(c, s) && Enabled(c, s, a) && RowsAdvance(s.rows, Rewrite(s.rows, Act(c, s, a).write))
    requires a.Deliver? || a.LoadDocument? || a.MarkRunning? || a.ExecuteOk? || a.ExecuteFail? || a.Save? || a.Nack?
    ensures RetryEffect(c, s, Act(c, s, a))
  {
    RetryStays(c, s.rows, Rewrite(s.rows, Act(c, s, a).write), s.procs[a.p]);
  }

  lemma TriggerRetry(c: Config, s: State, a: Action)
    requires ValidConfig(c) && Inv(c, s) && RetryInv(c, s) && Enabled(c, s, a)
    requires RowsAdvance(s.rows, Rewrite(s.rows, Act(c, s, a).write))
    requires a.ReadReady? || a.ClaimNext? || a.EndClaims?
    ensures RetryEffect(c, s, Act(c, s, a))
  {
    RetryStays(c, s.rows, Rewrite(s.rows, Act(c, s, a).write), s.procs[a.p]);
  }

  lemma PublishClaimedRetry(c: Config, s: State, x: Proc)
    requires c.maxAttempts >= 1 && RetryOk(c, s.rows, x) && x.Delivery? && x.stage.Publishing?
    requires x.stage.claimed in s.rows
    ensures RetryEffect(c, s, PublishClaimedEffect(x))
  {}

  lemma RecomputeRetry(c: Config, s: State, a: Action)
    requires RetryInv(c, s) && Enabled(c, s, a) && a.RecomputeStep?
    ensures RetryEffect(c, s, Act(c, s, a))
  {
    assert RetryOk(c, s.rows, s.procs[a.p]);
  }

  lemma OtherRetry(c: Config, s: State, a: Action)
    requires ValidConfig(c) && Inv(c, s) && RetryInv(c, s) && Enabled(c, s, a)
    requires a.Ack? || a.DeadLetter? || a.ReceiveWebhook? || a.LookupJob? || a.SettleCallback? || a.ScanInFlight?
          || a.ScanCallbacks? || a.EndReap? || a.EndCreate?
    ensures RetryEffect(c, s, Act(c, s, a))
  {
    hide ValidConfig, Inv, RetryInv, Enabled, Act;
    if Ends(a) {
      EndersVanish(c, s, a);
    } else {
      NoDeliveryRetry(c, s, a);
    }
  }

  lemma NoDeliveryRetry(c: Config, s: State, a: Action)
    requires Enabled(c, s, a)
    requires a.ReceiveWebhook? || a.LookupJob? || a.SettleCallback? || a.ScanInFlight? || a.ScanCallbacks?
    ensures RetryEffect(c, s, Act(c, s, a))
  {}

  lemma PublishRetry(c: Config, s: State, a: Action)
    requires ValidConfig(c) && Inv(c, s) && RetryInv(c, s) && Enabled(c, s, a) && (a.ReapNext? || a.PublishEntry?)
    ensures RetryEffect(c, s, Act(c, s, a))
  {
    assert ProcOk(c.graph, s.rows, s.hist.everDone, s.procs[a.p]);
    if a.PublishEntry? {
      assert s.procs[a.p].entries[0] in s.procs[a.p].entries;
    }
  }

  lemma NextKeepsRetry(c: Config, s: State, a: Action, s': State)
    requires ValidConfig(c) && Inv(c, s) && Fresh(s) && RetryInv(c, s) && RowsAdvance(s.rows, s'.rows)
    requires Next(c, s, a, s') && !a.Crash? && !a.Drop? && !a.Redeliver?
    ensures RetryInv(c, s')
  {
    if a.FailAttempt? {
      FailAttemptRetry(c, s, a);
    } else if a.Deliver? || a.LoadDocument? || a.MarkRunning? || a.ExecuteOk? || a.ExecuteFail? || a.Save? || a.Nack? {
      HandlerRetry(c, s, a);
    } else if a.ReadReady? || a.ClaimNext? || a.EndClaims? {
      TriggerRetry(c, s, a);
    } else if a.PublishClaimed? {
      assert ProcOk(c.graph, s.rows, s.hist.everDone, s.procs[a.p]);
      PublishClaimedRetry(c, s, s.procs[a.p]);
    } else if a.RecomputeStep? {
      RecomputeRetry(c, s, a);
    } else if a.ReapNext? || a.PublishEntry? {
      PublishRetry(c, s, a);
    } else {
      OtherRetry(c, s, a);
    }
    ApplyKeepsRetry(c, s, Subject(s, a), Act(c, s, a));
  }

  // ---- every queued or running step is in somebody's hands ----

  /** `x` is, or is about to publish, a message that can still run step `n`. */
  predicate Carries(x: Proc, n: StepName) {
    match x
    case Delivery(m, _, stage) =>
      || (m == n && (stage.Waiting? || stage.Loaded? || stage.Checked? || stage.Executing? || stage.Saving?
                     || stage.Failing? || stage.Nacking?))
      || (stage.Publishing? && stage.claimed == n)
    case Creator(entries) => n in entries
    case _ => false
  }

  ghost predicate Ongoing(rows: Rows, n: StepName) {
    n in rows && rows[n].status in {Queued, Running}
  }

  ghost predicate Carried(s: State, n: StepName) {
    exists p :: p in s.procs && Carries(s.procs[p], n)
  }

  ghost predicate CarryInv(s: State) {
    forall n :: Ongoing(s.rows, n) ==> s.doc == Failed || Carried(s, n)
  }

  ghost predicate EffectCarries(e: Effect, n: StepName) {
    (e.self.Some? && Carries(e.self.value, n)) || (e.spawn.Some? && Carries(e.spawn.value, n))
  }

  lemma ReaderKeepsCarrying(c: Config, s: State, a: Action, n: StepName)
    requires Enabled(c, s, a) && Ongoing(s.rows, n)
    requires a.Deliver? || a.LoadDocument? || a.ExecuteOk? || a.ExecuteFail? || a.Nack?
    requires Carries(s.procs[a.p], n)
    ensures EffectCarries(Act(c, s, a), n) || s.doc == Failed
  {}

  lemma PublisherKeepsCarrying(c: Config, s: State, a: Action, n: StepName)
    requires Enabled(c, s, a)
    requires a.PublishClaimed? || a.PublishEntry? || a.EndCreate? || a.EndClaims? || a.ReadReady? || a.ClaimNext?
          || a.RecomputeStep? || a.Ack? || a.LookupJob? || a.SettleCallback? || a.ReapNext? || a.ScanCallbacks?
              || a.EndReap?
    requires Carries(s.procs[a.p], n)
    ensures EffectCarries(Act(c, s, a), n)
  {}

  lemma WriterCarries(c: Config, s: State, a: Action, n: StepName)
    requires Known(c, s) && Enabled(c, s, a)
    requires a.MarkRunning? || a.Save? || a.FailAttempt?
    requires Ongoing(Rewrite(s.rows, Act(c, s, a).write), n)
    requires Carries(s.procs[a.p], n)
    ensures EffectCarries(Act(c, s, a), n)
  {
    assert ProcFresh(s.rows, s.procs[a.p]) && ProcOk(c.graph, s.rows, s.hist.everDone, s.procs[a.p]);
  }

  /** A message goes although its handler has not ended: the broker drops it, or the callback acknowledges it
      after a clean-up that raised. */
  ghost predicate LosesMessage(s: State, a: Action) {
    || a.DeadLetter?
    || (a.Drop? && a.p in s.procs && s.procs[a.p].Delivery? && !s.procs[a.p].stage.Acking?)
  }

  /** A lost message, or a crash after which nobody repeats what the actor still had to do: publish, claim or
      recompute. A crash anywhere else is made up for by redelivery. */
  ghost predicate LosesWork(s: State, a: Action) {
    || LosesMessage(s, a)
    || (a.Crash? && a.p in s.procs && (s.procs[a.p].Creator? || Triggers(s.procs[a.p])
                                       || RecomputeOf(s.procs[a.p]).Some?))
  }

  predicate Triggers(x: Proc) {
    x.Delivery? && (x.stage.Triggering? || x.stage.Claiming? || x.stage.Publishing?)
  }

  lemma RedeliveryCarries(c: Config, s: State, a: Action, n: StepName)
    requires Enabled(c, s, a) && (a.Crash? || a.Redeliver?) && !LosesWork(s, a) && Carries(s.procs[a.p], n)
    ensures EffectCarries(Act(c, s, a), n)
  {}

  lemma CarrierActs(c: Config, s: State, a: Action, n: StepName)
    requires Known(c, s) && Enabled(c, s, a) && !LosesWork(s, a)
    requires Ongoing(s.rows, n) && Ongoing(Rewrite(s.rows, Act(c, s, a).write), n)
    requires Subject(s, a) in s.procs && Carries(s.procs[Subject(s, a)], n)
    ensures EffectCarries(Act(c, s, a), n) || s.doc == Failed
  {
    var p := Subject(s, a);
    assert p < s.nextId;
    if a.Crash? || a.Redeliver? {
      RedeliveryCarries(c, s, a, n);
    } else if a.Deliver? || a.LoadDocument? || a.ExecuteOk? || a.ExecuteFail? || a.Nack? {
      ReaderKeepsCarrying(c, s, a, n);
    } else if a.MarkRunning? || a.Save? || a.FailAttempt? {
      WriterCarries(c, s, a, n);
    } else if !a.Drop? {
      PublisherKeepsCarrying(c, s, a, n);
    }
  }

  /** A row that enters the in-flight statuses is carried by the process that wrote it. */
  lemma NewlyInFlightIsCarried(c: Config, s: State, a: Action, n: StepName)
    requires Known(c, s) && Enabled(c, s, a)
    requires !Ongoing(s.rows, n) && Ongoing(Rewrite(s.rows, Act(c, s, a).write), n)
    ensures EffectCarries(Act(c, s, a), n)
  {
    if HandlerCommits(a) {
      HandlersStartNothing(c, s, a, n);
    } else if Commits(a) {
      ClaimantsCarryWhatTheyWrite(c, s, a, n);
    } else {
      OthersWriteNothing(c, s, a);
    }
  }

  /** A handler commits only to a row that was in flight already. */
  lemma HandlersStartNothing(c: Config, s: State, a: Action, n: StepName)
    requires Known(c, s) && Enabled(c, s, a) && HandlerCommits(a)
    requires Ongoing(Rewrite(s.rows, Act(c, s, a).write), n)
    ensures Ongoing(s.rows, n)
  {
    assert ProcFresh(s.rows, s.procs[a.p]);
    assert ProcOk(c.graph, s.rows, s.hist.everDone, s.procs[a.p]);
  }

  lemma ClaimantsCarryWhatTheyWrite(c: Config, s: State, a: Action, n: StepName)
    requires Known(c, s) && Enabled(c, s, a) && (a.ClaimNext? || a.SettleCallback? || a.ReapNext?)
    requires !Ongoing(s.rows, n) && Ongoing(Rewrite(s.rows, Act(c, s, a).write), n)
    ensures EffectCarries(Act(c, s, a), n)
  {
    assert ProcFresh(s.rows, s.procs[a.p]);
  }

  lemma EffectCarriesOn(s: State, p: nat, e: Effect, n: StepName)
    requires EffectCarries(e, n) && p < s.nextId
    ensures Carried(Apply(s, p, e), n)
  {
    var s' := Apply(s, p, e);
    if e.spawn.Some? && Carries(e.spawn.value, n) {
      assert Carries(s'.procs[s.nextId], n);
    } else {
      assert Carries(s'.procs[p], n);
    }
  }

  lemma EnabledSubject(c: Config, s: State, a: Action)
    requires Inv(c, s) && Enabled(c, s, a)
    ensures (Subject(s, a) in s.procs && Subject(s, a) < s.nextId) || a.ReceiveWebhook? || a.ScanInFlight?
  {}

  lemma SpawnersDoNotCarry(c: Config, s: State, a: Action, n: StepName)
    requires Enabled(c, s, a) && (a.ReceiveWebhook? || a.ScanInFlight?)
    ensures !EffectCarries(Act(c, s, a), n) && Act(c, s, a).write.NoWrite? && Act(c, s, a).self == None
  {}

  lemma NextKeepsCarried(c: Config, s: State, a: Action, s': State, n: StepName)
    requires Known(c, s) && CarryInv(s) && Next(c, s, a, s') && !LosesWork(s, a)
    requires Ongoing(s'.rows, n) && (s.doc == Failed ==> s'.doc == Failed)
    ensures s'.doc == Failed || Carried(s', n)
  {
    var p, e := Subject(s, a), Act(c, s, a);
    EnabledSubject(c, s, a);
    if a.ReceiveWebhook? || a.ScanInFlight? {
      SpawnersDoNotCarry(c, s, a, n);
    }
    if !Ongoing(s.rows, n) {
      NewlyInFlightIsCarried(c, s, a, n);
      EffectCarriesOn(s, p, e, n);
    } else if s.doc != Failed {
      var w :| w in s.procs && Carries(s.procs[w], n);
      if w == p {
        CarrierActs(c, s, a, n);
        EffectCarriesOn(s, p, e, n);
      } else {
        OthersStay(c, s, p, e, w);
        assert Carries(s'.procs[w], n);
      }
    }
  }

  lemma OthersStay(c: Config, s: State, p: nat, e: Effect, w: nat)
    requires Inv(c, s) && w in s.procs && w != p
    ensures w in Apply(s, p, e).procs && Apply(s, p, e).procs[w] == s.procs[w]
  {}

  lemma NextKeepsCarryInv(c: Config, s: State, a: Action, s': State)
    requires Known(c, s) && CarryInv(s) && Next(c, s, a, s') && !LosesWork(s, a)
    requires s.doc == Failed ==> s'.doc == Failed
    ensures CarryInv(s')
  {
    forall n | Ongoing(s'.rows, n) ensures s'.doc == Failed || Carried(s', n) {
      NextKeepsCarried(c, s, a, s', n);
    }
  }

  // ---- every step whose predecessors are done is about to be claimed ----

  /** `x` is going to try to claim step `n`. */
  predicate WillClaim(x: Proc, n: StepName) {
    x.Delivery? &&
      match x.stage
      case Triggering(_) => true
      case Claiming(_, todo) => n in todo
      case Publishing(_, _, todo) => n in todo
      case _ => false
  }

  ghost predicate Claimable(g: Graph, rows: Rows, n: StepName) {
    n in rows && rows[n].status == Pending && PredsOf(g, n) <= DoneSet(rows)
  }

  ghost predicate Awaited(s: State, n: StepName) {
    exists p :: p in s.procs && WillClaim(s.procs[p], n)
  }

  ghost predicate ClaimDue(c: Config, s: State) {
    forall n :: Claimable(c.graph, s.rows, n) ==> Awaited(s, n)
  }

  lemma ClaimantGoesOn(c: Config, s: State, a: Action, n: StepName)
    requires ValidConfig(c) && Inv(c, s) && Enabled(c, s, a) && !LosesWork(s, a)
    requires Claimable(c.graph, s.rows, n) && Rewrite(s.rows, Act(c, s, a).write)[n].status == Pending
    requires Subject(s, a) in s.procs && WillClaim(s.procs[Subject(s, a)], n)
    ensures var e := Act(c, s, a); e.self.Some? && WillClaim(e.self.value, n)
  {
    if a.ReadReady? {
      assert n in ReadySuccessors(c.graph, DoneSet(s.rows));
    } else {
      ClaimerGoesOn(c, s, a, n);
    }
  }

  lemma ClaimerGoesOn(c: Config, s: State, a: Action, n: StepName)
    requires Enabled(c, s, a) && !LosesWork(s, a) && !a.ReadReady?
    requires n in s.rows && Rewrite(s.rows, Act(c, s, a).write)[n].status == Pending
    requires Subject(s, a) in s.procs && Subject(s, a) != s.nextId && WillClaim(s.procs[Subject(s, a)], n)
    ensures var e := Act(c, s, a); e.self.Some? && WillClaim(e.self.value, n)
  {}

  lemma NothingWaitsForTheCall(g: Graph, n: StepName)
    requires Valid(g) && TerminalNodes(g) == [ExternalCall] && n in g.nodes
    ensures ExternalCall !in PredsOf(g, n)
  {
    assert ExternalCall in TerminalNodes(g);
    assert SuccessorsOf(g, ExternalCall) == [];
    assert n !in SuccessorsOf(g, ExternalCall);
  }

  /** Only a handler's DONE commit makes another step claimable, and that handler triggers next. */
  lemma DoneCommitTriggers(c: Config, s: State, a: Action, n: StepName)
    requires ValidConfig(c) && Known(c, s) && Enabled(c, s, a)
    requires n in s.rows && !Claimable(c.graph, s.rows, n) && Claimable(c.graph, Rewrite(s.rows, Act(c, s, a).write), n)
    ensures var e := Act(c, s, a); e.self.Some? && WillClaim(e.self.value, n)
  {
    var w := Act(c, s, a).write;
    assert n in c.graph.nodes;
    NothingWaitsForTheCall(c.graph, n);
    NewlyDone(c, s, a, n);
    WhoCommitsDone(c, s, a);
  }

  lemma NewlyDone(c: Config, s: State, a: Action, n: StepName)
    requires Enabled(c, s, a) && Known(c, s)
    requires n in s.rows && !Claimable(c.graph, s.rows, n) && Claimable(c.graph, Rewrite(s.rows, Act(c, s, a).write), n)
    ensures var w := Act(c, s, a).write; w.WriteRow? && w.row.status == Done && w.step in PredsOf(c.graph, n)
  {
    var w := Act(c, s, a).write;
    assert w.WriteRow?;
    if w.step == n {
      WritesLeavePending(c, s, a);
    }
    var k :| k in PredsOf(c.graph, n) && k !in DoneSet(s.rows);
    assert k in DoneSet(Rewrite(s.rows, w));
  }

  lemma WritesLeavePending(c: Config, s: State, a: Action)
    requires Known(c, s) && Enabled(c, s, a)
    ensures var w := Act(c, s, a).write; w.WriteRow? ==> w.row.status != Pending
  {
    if HandlerCommits(a) {
      HandlersWriteForward(c, s, a);
    } else if Commits(a) {
      OthersWriteForward(c, s, a);
    } else {
      OthersWriteNothing(c, s, a);
    }
  }

  lemma HandlersWriteForward(c: Config, s: State, a: Action)
    requires Known(c, s) && Enabled(c, s, a) && HandlerCommits(a)
    ensures var w := Act(c, s, a).write; w.WriteRow? ==> w.row.status != Pending
  {
    assert ProcFresh(s.rows, s.procs[a.p]);
  }

  lemma OthersWriteForward(c: Config, s: State, a: Action)
    requires Known(c, s) && Enabled(c, s, a) && (a.ClaimNext? || a.SettleCallback? || a.ReapNext?)
    ensures var w := Act(c, s, a).write; w.WriteRow? ==> w.row.status != Pending
  {
    assert ProcFresh(s.rows, s.procs[a.p]);
  }

  lemma WhoCommitsDone(c: Config, s: State, a: Action)
    requires Known(c, s) && Enabled(c, s, a)
    requires var w := Act(c, s, a).write; w.WriteRow? && w.row.status == Done && w.step != ExternalCall
    ensures a.Save? && Act(c, s, a).self.Some? && Act(c, s, a).self.value.Delivery?
         && Act(c, s, a).self.value.stage.Triggering?
  {
    if Subject(s, a) in s.procs {
      assert ProcFresh(s.rows, s.procs[Subject(s, a)]);
      assert ProcOk(c.graph, s.rows, s.hist.everDone, s.procs[Subject(s, a)]);
    }
  }

  lemma AwaitedGoesOn(c: Config, s: State, a: Action, s': State, n: StepName)
    requires ValidConfig(c) && Inv(c, s) && Next(c, s, a, s') && !LosesWork(s, a)
    requires Claimable(c.graph, s.rows, n) && Awaited(s, n) && n in s'.rows && s'.rows[n].status == Pending
    ensures Awaited(s', n)
  {
    var p, e := Subject(s, a), Act(c, s, a);
    var w :| w in s.procs && WillClaim(s.procs[w], n);
    if w == p {
      ClaimantGoesOn(c, s, a, n);
      ActorStays(s, p, e);
      assert WillClaim(s'.procs[p], n);
    } else {
      OthersStay(c, s, p, e, w);
      assert WillClaim(s'.procs[w], n);
    }
  }

  lemma ActorStays(s: State, p: nat, e: Effect)
    requires e.self.Some? && p < s.nextId
    ensures p in Apply(s, p, e).procs && Apply(s, p, e).procs[p] == e.self.value
  {}

  lemma NewlyAwaited(c: Config, s: State, a: Action, s': State, n: StepName)
    requires ValidConfig(c) && Known(c, s) && Next(c, s, a, s')
    requires n in s.rows && !Claimable(c.graph, s.rows, n) && Claimable(c.graph, s'.rows, n)
    ensures Awaited(s', n)
  {
    var p, e := Subject(s, a), Act(c, s, a);
    DoneCommitTriggers(c, s, a, n);
    SelfIsSubject(c, s, a);
    ActorStays(s, p, e);
    assert WillClaim(s'.procs[p], n);
  }

  lemma SelfIsSubject(c: Config, s: State, a: Action)
    requires Inv(c, s) && Enabled(c, s, a) && Act(c, s, a).self.Some?
    ensures Subject(s, a) in s.procs && Subject(s, a) < s.nextId
  {}

  lemma NextKeepsClaimDue(c: Config, s: State, a: Action, s': State)
    requires ValidConfig(c) && Known(c, s) && ClaimDue(c, s) && Next(c, s, a, s') && !LosesWork(s, a)
    requires s'.rows.Keys == s.rows.Keys
    ensures ClaimDue(c, s')
  {
    forall n | Claimable(c.graph, s'.rows, n) ensures Awaited(s', n) {
      if Claimable(c.graph, s.rows, n) {
        AwaitedGoesOn(c, s, a, s', n);
      } else {
        NewlyAwaited(c, s, a, s', n);
      }
    }
  }

  // ---- every outcome is about to reach the document ----

  ghost predicate Outcome(rows: Rows, d: DocumentStatus) {
    (d == Ready && CallDone(rows)) || (d == Failed && AnyError(rows))
  }

  /** `x` is going to store `d`, if `d` is what the rows say. */
  predicate WillStore(x: Proc, d: DocumentStatus) {
    match RecomputeOf(x)
    case Some(ReadStatuses) => true
    case Some(ReadDocument(derived)) => derived == d
    case Some(WriteDocument(derived, stored)) => derived == d && stored != d
    case None => false
  }

  ghost predicate StoreComing(s: State, d: DocumentStatus) {
    exists p :: p in s.procs && WillStore(s.procs[p], d)
  }

  ghost predicate StoreDue(s: State) {
    forall d :: Outcome(s.rows, d) ==> s.doc == d || StoreComing(s, d)
  }

  /** A crash that loses a recomputation. */
  ghost predicate CrashesRecompute(s: State, a: Action) {
    && (a.Crash? || a.Drop?) && a.p in s.procs && RecomputeOf(s.procs[a.p]).Some?
    && (a.Drop? ==> s.procs[a.p].Delivery?)
  }

  lemma DerivesOutcome(c: Config, s: State, d: DocumentStatus)
    requires ValidConfig(c) && Known(c, s) && Outcome(s.rows, d)
    ensures DeriveDocumentStatus(s.rows) == d
  {
    if CallDone(s.rows) {
      CallDoneMeansAllDone(c, s);
    }
  }

  lemma RecomputerStores(c: Config, s: State, x: Proc, d: DocumentStatus)
    requires ValidConfig(c) && Known(c, s) && ProcStatus(s.rows, s.doc, x) && RecomputeOf(x).Some?
    requires Outcome(s.rows, d) && s.doc != d && WillStore(x, d)
    ensures var e := RecomputeEffect(s.rows, s.doc, x);
      (e.self.Some? && WillStore(e.self.value, d)) || e.doc == Some(d)
  {
    DerivesOutcome(c, s, d);
    RecomputeStores(s.rows, s.doc, x, d);
  }

  lemma RecomputeStores(rows: Rows, doc: DocumentStatus, x: Proc, d: DocumentStatus)
    requires RecomputeOf(x).Some? && (SeenBy(x).Some? ==> SeenBy(x).value == Processing)
    requires DeriveDocumentStatus(rows) == d && d != Processing && doc != d && WillStore(x, d)
    ensures var e := RecomputeEffect(rows, doc, x);
      (e.self.Some? && WillStore(e.self.value, d)) || e.doc == Some(d)
  {
    if x.Delivery? {
      assert SeenBy(x) == Some(x.stage.seen);
    }
  }

  lemma OnlyRecomputersStore(c: Config, s: State, a: Action, d: DocumentStatus)
    requires Enabled(c, s, a) && !a.RecomputeStep? && !a.Redeliver? && !CrashesRecompute(s, a)
    requires Inv(c, s) && Subject(s, a) in s.procs
    ensures !WillStore(s.procs[Subject(s, a)], d)
  {}

  lemma DecisiveCommitRecomputes(c: Config, s: State, a: Action, d: DocumentStatus)
    requires Known(c, s) && Enabled(c, s, a)
    requires !Outcome(s.rows, d) && Outcome(Rewrite(s.rows, Act(c, s, a).write), d)
    ensures var e := Act(c, s, a); e.self.Some? && WillStore(e.self.value, d)
  {
    var w := Act(c, s, a).write;
    NewOutcomeIsWritten(s.rows, w, d);
    if HandlerCommits(a) {
      FailureRecomputes(c, s, a, d);
    } else if Commits(a) {
      DecisionRecomputes(c, s, a, d);
    } else {
      OthersWriteNothing(c, s, a);
    }
  }

  /** The commit that decides an outcome is an ERROR, or DONE of external_call. */
  ghost predicate Decisive(w: RowWrite) {
    w.WriteRow? && (w.row.status == Error || (w.row.status == Done && w.step == ExternalCall))
  }

  lemma FailureRecomputes(c: Config, s: State, a: Action, d: DocumentStatus)
    requires Known(c, s) && Enabled(c, s, a) && HandlerCommits(a) && Decisive(Act(c, s, a).write)
    ensures var e := Act(c, s, a); e.self.Some? && WillStore(e.self.value, d)
  {
    assert ProcFresh(s.rows, s.procs[a.p]);
    assert ProcOk(c.graph, s.rows, s.hist.everDone, s.procs[a.p]);
  }

  lemma DecisionRecomputes(c: Config, s: State, a: Action, d: DocumentStatus)
    requires Enabled(c, s, a) && (a.ClaimNext? || a.SettleCallback? || a.ReapNext?) && Decisive(Act(c, s, a).write)
    ensures var e := Act(c, s, a); e.self.Some? && WillStore(e.self.value, d)
  {}

  lemma NewOutcomeIsWritten(rows: Rows, w: RowWrite, d: DocumentStatus)
    requires !Outcome(rows, d) && Outcome(Rewrite(rows, w), d)
    ensures Decisive(w)
  {}

  /** The process that is going to store `d` takes its next action. */
  lemma StorerGoesOn(c: Config, s: State, a: Action, s': State, d: DocumentStatus)
    requires ValidConfig(c) && Known(c, s) && StatusInv(s) && Next(c, s, a, s') && !CrashesRecompute(s, a)
    requires Subject(s, a) in s.procs && WillStore(s.procs[Subject(s, a)], d)
    requires s.doc != d && Outcome(s.rows, d) && Outcome(s'.rows, d) && (s.doc != Processing ==> s'.doc == s.doc)
    ensures s'.doc == d || StoreComing(s', d)
  {
    hide ValidConfig, Inv, Fresh, RowsSettled, ProcStatus, DeriveDocumentStatus;
    var p, e := Subject(s, a), Act(c, s, a);
    EnabledSubject(c, s, a);
    if a.RecomputeStep? {
      assert ProcStatus(s.rows, s.doc, s.procs[a.p]);
      RecomputerStores(c, s, s.procs[a.p], d);
      assert e.self.Some? && WillStore(e.self.value, d) ==> WillStore(s'.procs[p], d);
    } else if a.Redeliver? {
      assert WillStore(s'.procs[p], d);
    } else {
      OnlyRecomputersStore(c, s, a, d);
    }
  }

  lemma NextKeepsStore(c: Config, s: State, a: Action, s': State, d: DocumentStatus)
    requires ValidConfig(c) && Known(c, s) && StatusInv(s) && StoreDue(s) && Next(c, s, a, s')
    requires !CrashesRecompute(s, a)
    requires Outcome(s'.rows, d) && (s.doc != Processing ==> s'.doc == s.doc)
    ensures s'.doc == d || StoreComing(s', d)
  {
    hide ValidConfig, Inv, Fresh, RowsSettled, StatusInv, DeriveDocumentStatus;
    var p, e := Subject(s, a), Act(c, s, a);
    EnabledSubject(c, s, a);
    if !Outcome(s.rows, d) {
      DecisiveCommitRecomputes(c, s, a, d);
      assert WillStore(s'.procs[p], d);
    } else if s.doc != d {
      var w :| w in s.procs && WillStore(s.procs[w], d);
      if w != p {
        OthersStay(c, s, p, e, w);
        assert WillStore(s'.procs[w], d);
      } else {
        StorerGoesOn(c, s, a, s', d);
      }
    }
  }

  lemma NextKeepsStoreDue(c: Config, s: State, a: Action, s': State)
    requires ValidConfig(c) && Known(c, s) && StatusInv(s) && StoreDue(s) && Next(c, s, a, s')
    requires !CrashesRecompute(s, a)
    requires s.doc != Processing ==> s'.doc == s.doc
    ensures StoreDue(s')
  {
    forall d | Outcome(s'.rows, d) ensures s'.doc == d || StoreComing(s', d) {
      NextKeepsStore(c, s, a, s', d);
    }
  }
}

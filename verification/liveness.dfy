/** Theorems about whole runs that lose no work to crashes. */
module Liveness {
  import opened Model
  import opened Dag
  import opened Rules
  import opened Protocol
  import opened Claims
  import opened NoOverlaps
  import opened Status
  import opened Outcomes
  import opened Progress

  ghost predicate Flowing(c: Config, s: State) {
    Settling(c, s) && CarryInv(s) && ClaimDue(c, s)
  }

  ghost predicate NothingLost(r: Run)
    requires |r.states| == |r.actions| + 1
  {
    forall i :: 0 <= i < |r.actions| ==> !LosesWork(r.states[i], r.actions[i])
  }

  lemma NextKeepsFlowing(c: Config, s: State, a: Action, s': State)
    requires ValidConfig(c) && Flowing(c, s) && NoOverlap(s) && Next(c, s, a, s') && !LosesWork(s, a)
    ensures Flowing(c, s')
  {
    NextKeepsSettling(c, s, a, s');
    NextKeepsCarryInv(c, s, a, s');
    SameSteps(c, s, s');
    NextKeepsClaimDue(c, s, a, s');
  }

  lemma SameSteps(c: Config, s: State, s': State)
    requires Inv(c, s) && Inv(c, s')
    ensures s'.rows.Keys == s.rows.Keys
  {}

  lemma InitialFlowing(c: Config)
    requires ValidConfig(c)
    ensures Flowing(c, Initial(c))
  {
    InitialSettling(c);
    InitialCarry(c);
    InitialClaimDue(c);
  }

  lemma InitialCarry(c: Config)
    ensures CarryInv(Initial(c))
  {
    var s := Initial(c);
    forall n | Ongoing(s.rows, n) ensures Carried(s, n) {
      assert Carries(s.procs[0], n);
    }
  }

  lemma InitialClaimDue(c: Config)
    requires ValidConfig(c)
    ensures ClaimDue(c, Initial(c))
  {
    var s := Initial(c);
    assert DoneSet(s.rows) == {};
    forall n | n in s.rows && PredsOf(c.graph, n) <= {} ensures s.rows[n].status == Queued {
      assert PredsOf(c.graph, n) == {};
      assert n in EntryNodes(c.graph);
    }
  }

  lemma StepKeepsFlowing(c: Config, r: Run, i: nat)
    requires ValidConfig(c) && IsRun(c, r) && NoOverlapEver(r) && NothingLost(r) && i < |r.actions|
    requires Flowing(c, r.states[i])
    ensures Flowing(c, r.states[i+1])
  {
    StepOf(c, r, i);
    NoOverlapAt(r, i);
    NextKeepsFlowing(c, r.states[i], r.actions[i], r.states[i+1]);
  }

  lemma RunFlowing(c: Config, r: Run, i: nat)
    requires ValidConfig(c) && IsRun(c, r) && NoOverlapEver(r) && NothingLost(r) && i < |r.states|
    ensures Flowing(c, r.states[i])
  {
    var P := (s: State) => Flowing(c, s);
    InitialFlowing(c);
    forall k {:trigger Keeps(r, P, k)} | 0 <= k < |r.states| - 1 ensures Keeps(r, P, k) {
      if P(r.states[k]) {
        StepKeepsFlowing(c, r, k);
      }
    }
    Induct(r, P, 0, i);
  }

  // ---- the status catches up ----

  ghost predicate NoRecomputeLost(r: Run)
    requires |r.states| == |r.actions| + 1
  {
    forall i :: 0 <= i < |r.actions| ==> !CrashesRecompute(r.states[i], r.actions[i])
  }

  ghost predicate Storing(c: Config, s: State) {
    Settling(c, s) && StoreDue(s)
  }

  lemma StepKeepsStoring(c: Config, r: Run, i: nat)
    requires ValidConfig(c) && IsRun(c, r) && NoOverlapEver(r) && NoRecomputeLost(r) && i < |r.actions|
    requires Storing(c, r.states[i])
    ensures Storing(c, r.states[i+1])
  {
    StepOf(c, r, i);
    NoOverlapAt(r, i);
    NextKeepsSettling(c, r.states[i], r.actions[i], r.states[i+1]);
    NextKeepsStoreDue(c, r.states[i], r.actions[i], r.states[i+1]);
  }

  lemma RunStartsStoring(c: Config, r: Run)
    requires ValidConfig(c) && IsRun(c, r)
    ensures Storing(c, r.states[0])
  {
    InitialSettling(c);
    assert StoreDue(Initial(c));
  }

  lemma RunStoring(c: Config, r: Run, i: nat)
    requires ValidConfig(c) && IsRun(c, r) && NoOverlapEver(r) && NoRecomputeLost(r) && i < |r.states|
    ensures Storing(c, r.states[i])
  {
    assert |r.states| == |r.actions| + 1;
    hide ValidConfig, IsRun, NoOverlapEver, NoRecomputeLost, Storing;
    var P := (s: State) => Storing(c, s);
    RunStartsStoring(c, r);
    forall k {:trigger Keeps(r, P, k)} | 0 <= k < |r.states| - 1 ensures Keeps(r, P, k) {
      if P(r.states[k]) {
        StepKeepsStoring(c, r, k);
      }
    }
    Induct(r, P, 0, i);
  }

  /** If no actor crashed inside its recomputation, then whenever none is recomputing the stored status
      is the one derived from the rows. Crashes anywhere else do not matter. */
  lemma QuiescentStatusIsDerived(c: Config, r: Run, i: nat)
    requires ValidConfig(c) && IsRun(c, r) && NoOverlapEver(r) && NoRecomputeLost(r) && i < |r.states|
    requires forall p :: p in r.states[i].procs ==> RecomputeOf(r.states[i].procs[p]) == None
    ensures r.states[i].doc == DeriveDocumentStatus(r.states[i].rows)
  {
    RunStoring(c, r, i);
    QuietStatusIsDerived(c, r.states[i]);
  }

  lemma QuietStatusIsDerived(c: Config, s: State)
    requires ValidConfig(c) && Known(c, s) && StatusInv(s) && StoreDue(s)
    requires forall p :: p in s.procs ==> RecomputeOf(s.procs[p]) == None
    ensures s.doc == DeriveDocumentStatus(s.rows)
  {
    forall d ensures !StoreComing(s, d) {}
    if CallDone(s.rows) {
      CallDoneMeansAllDone(c, s);
      assert Outcome(s.rows, Ready);
    } else if AnyError(s.rows) {
      assert Outcome(s.rows, Failed);
    }
  }

  // ---- nothing is stranded ----

  ghost predicate CallIsAllThatWaits(c: Config, s: State) {
    && CallWaits(s)
    && forall n :: n in s.rows && n != ExternalCall ==> s.rows[n].status == Done
  }

  lemma NothingLostNoRecompute(r: Run)
    requires |r.states| == |r.actions| + 1 && NothingLost(r)
    ensures NoRecomputeLost(r)
  {
    forall i | 0 <= i < |r.actions| ensures !CrashesRecompute(r.states[i], r.actions[i]) {
      assert !LosesWork(r.states[i], r.actions[i]);
    }
  }

  /** No message is left, no handler, no creation and no recomputation. */
  ghost predicate AtRest(s: State) {
    forall p :: p in s.procs ==> !s.procs[p].Delivery? && !s.procs[p].Creator? && RecomputeOf(s.procs[p]) == None
  }

  /** In every interleaving of workers, webhooks and reapers, and with any crashes that redelivery makes up
      for: once no message and no live handler remain, the document is FAILED, or READY, or only the
      partner's answer is missing. */
  lemma NoStranding(c: Config, r: Run, i: nat)
    requires ValidConfig(c) && IsRun(c, r) && NoOverlapEver(r) && NothingLost(r) && i < |r.states|
    requires AtRest(r.states[i])
    ensures r.states[i].doc == Failed || r.states[i].doc == Ready || CallIsAllThatWaits(c, r.states[i])
  {
    RunFlowing(c, r, i);
    NothingLostNoRecompute(r);
    RunStoring(c, r, i);
    IdleIsNotStranded(c, r.states[i]);
  }

  lemma IdleIsNotStranded(c: Config, s: State)
    requires ValidConfig(c) && Known(c, s) && CarryInv(s) && ClaimDue(c, s) && StoreDue(s) && AtRest(s)
    ensures s.doc == Failed || s.doc == Ready || CallIsAllThatWaits(c, s)
  {
    if s.doc != Failed && s.doc != Ready {
      assert !StoreComing(s, Failed) && !StoreComing(s, Ready);
      assert !Outcome(s.rows, Failed) && !Outcome(s.rows, Ready);
      forall n | n in s.rows ensures !Ongoing(s.rows, n) {
        assert !Carried(s, n);
      }
      IdleHasNoPending(c, s);
      IdleRows(c, s);
    }
  }

  lemma IdleRows(c: Config, s: State)
    requires ValidConfig(c) && Known(c, s) && !AnyError(s.rows) && !CallDone(s.rows)
    requires forall n :: n in s.rows ==> !Ongoing(s.rows, n) && s.rows[n].status != Pending
    ensures CallIsAllThatWaits(c, s)
  {
    forall n | n in s.rows ensures s.rows[n].status == if n == ExternalCall then AwaitingCallback else Done {
      assert RowSettled(c, s.hist, s.hooks, n, s.rows[n]);
    }
    assert ExternalCall in TerminalNodes(c.graph);
  }

  lemma IdleHasNoPending(c: Config, s: State)
    requires ValidConfig(c) && Known(c, s) && ClaimDue(c, s) && AtRest(s)
    requires forall n :: n in s.rows ==> !Ongoing(s.rows, n)
    requires !AnyError(s.rows)
    ensures forall n :: n in s.rows ==> s.rows[n].status != Pending
  {
    var pending := set n | n in s.rows && s.rows[n].status == Pending;
    if pending != {} {
      var m := MinimalNode(c.graph, pending);
      MinimalPendingIsClaimable(c, s, pending, m);
    }
    forall n | n in s.rows ensures s.rows[n].status != Pending {
      assert n !in pending;
    }
  }

  lemma MinimalPendingIsClaimable(c: Config, s: State, pending: set<StepName>, m: StepName)
    requires ValidConfig(c) && Known(c, s) && !AnyError(s.rows)
    requires forall n :: n in s.rows ==> !Ongoing(s.rows, n)
    requires pending == set n | n in s.rows && s.rows[n].status == Pending
    requires m in pending && PredsOf(c.graph, m) * pending == {}
    ensures Claimable(c.graph, s.rows, m)
  {
    assert m in c.graph.nodes;
    NothingWaitsForTheCall(c.graph, m);
    forall k | k in PredsOf(c.graph, m) ensures k in DoneSet(s.rows) {
      PredIsARow(c, s, m, k);
      assert k !in PredsOf(c.graph, m) * pending;
      assert RowSettled(c, s.hist, s.hooks, k, s.rows[k]);
      assert !Ongoing(s.rows, k);
    }
  }

  lemma PredIsARow(c: Config, s: State, m: StepName, k: StepName)
    requires ValidConfig(c) && Inv(c, s) && m in s.rows && k in PredsOf(c.graph, m)
    ensures k in s.rows
  {
    assert k in NodeSet(c.graph);
  }

  // ---- bounded retries ----

  ghost predicate Retrying(c: Config, s: State) {
    Settling(c, s) && RetryInv(c, s)
  }

  lemma InitialRetrying(c: Config)
    requires ValidConfig(c)
    ensures Retrying(c, Initial(c))
  {
    InitialSettling(c);
  }

  lemma StepKeepsRetrying(c: Config, r: Run, i: nat)
    requires ValidConfig(c) && IsRun(c, r) && NoOverlapEver(r) && CrashFree(r) && i < |r.actions|
    requires Retrying(c, r.states[i])
    ensures Retrying(c, r.states[i+1])
  {
    StepOf(c, r, i);
    NoOverlapAt(r, i);
    NextKeepsSettling(c, r.states[i], r.actions[i], r.states[i+1]);
    NextKeepsRetry(c, r.states[i], r.actions[i], r.states[i+1]);
  }

  lemma RunRetrying(c: Config, r: Run, i: nat)
    requires ValidConfig(c) && IsRun(c, r) && NoOverlapEver(r) && CrashFree(r) && i < |r.states|
    ensures Retrying(c, r.states[i])
  {
    var P := (s: State) => Retrying(c, s);
    InitialRetrying(c);
    forall k {:trigger Keeps(r, P, k)} | 0 <= k < |r.states| - 1 ensures Keeps(r, P, k) {
      if P(r.states[k]) {
        StepKeepsRetrying(c, r, k);
      }
    }
    Induct(r, P, 0, i);
  }

  /** Each message is delivered at most `maxAttempts` times and sent back at most `maxAttempts - 1` times,
      so the broker's delivery limit never ends a chain of retries. */
  lemma MessagesAreBounded(c: Config, r: Run, i: nat, p: nat)
    requires ValidConfig(c) && IsRun(c, r) && NoOverlapEver(r) && CrashFree(r) && i < |r.states|
    requires p in r.states[i].procs && r.states[i].procs[p].Delivery?
    ensures r.states[i].procs[p].returned <= c.maxAttempts - 1
    ensures !Enabled(c, r.states[i], DeadLetter(p))
  {
    RunRetrying(c, r, i);
    RetriesLeft(c, r.states[i], p);
  }

  lemma RetriesLeft(c: Config, s: State, p: nat)
    requires RetryInv(c, s) && p in s.procs && s.procs[p].Delivery?
    ensures s.procs[p].returned <= c.maxAttempts - 1
    ensures !Enabled(c, s, DeadLetter(p))
  {
    assert RetryOk(c, s.rows, s.procs[p]);
  }

  /** A run without crashes loses nothing: the broker never drops a message. */
  lemma CrashFreeLosesNothing(c: Config, r: Run)
    requires ValidConfig(c) && IsRun(c, r) && NoOverlapEver(r) && CrashFree(r)
    ensures NothingLost(r)
  {
    forall i | 0 <= i < |r.actions| ensures !LosesWork(r.states[i], r.actions[i]) {
      if r.actions[i].DeadLetter? {
        StepOf(c, r, i);
        MessagesAreBounded(c, r, i, r.actions[i].p);
      }
    }
  }
}

/** Crash-free runs without a reaper: one message per step, and a bound on all the work there is. */
module Bounds {
  import opened Model
  import opened Dag
  import opened Rules
  import opened Protocol
  import opened Claims
  import opened NoOverlaps
  import opened Status
  import opened Outcomes
  import opened Progress
  import opened Liveness

  ghost predicate ReaperFree(r: Run) {
    forall i :: 0 <= i < |r.actions| ==> !r.actions[i].ScanInFlight?
  }

  /** `x` is the message of step `n`, or the publication it comes from. */
  predicate Holds(x: Proc, n: StepName) {
    match x
    case Delivery(m, _, stage) => m == n || (stage.Publishing? && stage.claimed == n)
    case Creator(entries) => n in entries
    case _ => false
  }

  ghost predicate Single(x: Proc) {
    match x
    case Delivery(m, _, stage) => stage.Publishing? ==> stage.claimed != m
    case Creator(entries) => Distinct(entries)
    case Reaper(_, _, _) => false
    case _ => true
  }

  /** How often step `n` may have been delivered, given that `x` holds it. */
  function DeliveriesBehind(x: Proc, n: StepName): nat {
    if x.Delivery? && x.step == n then x.returned + (if x.stage.Waiting? then 0 else 1) else 0
  }

  ghost predicate HolderOk(s: State, p: nat, n: StepName)
    requires p in s.procs
  {
    Holds(s.procs[p], n) ==>
      && s.hist.notes[Delivered(n)] <= DeliveriesBehind(s.procs[p], n)
      && forall q :: q in s.procs && Holds(s.procs[q], n) ==> q == p
  }

  ghost predicate OneHolderEach(s: State) {
    && (forall p :: p in s.procs ==> Single(s.procs[p]))
    && (forall p, n :: p in s.procs ==> HolderOk(s, p, n))
    && (forall n :: !LeftPending(s.rows, n) ==> s.hist.notes[Delivered(n)] == 0)
  }

  ghost predicate OneMessageEach(c: Config, s: State) {
    && OneHolderEach(s)
    && (forall n :: s.hist.notes[Delivered(n)] <= c.maxAttempts)
  }

  /** Messages are handed on, not copied: whoever holds a step afterwards got it from the actor or claimed it. */
  ghost predicate HandsOn(s: State, p: nat, e: Effect, n: StepName) {
    && (e.self.Some? && Holds(e.self.value, n) ==> (p in s.procs && Holds(s.procs[p], n)) || e.note == Claimed(n))
    && (e.spawn.Some? && Holds(e.spawn.value, n) ==>
          && p in s.procs && Holds(s.procs[p], n) && DeliveriesBehind(s.procs[p], n) == 0
          && (e.self.Some? ==> !Holds(e.self.value, n)))
    && (e.self.Some? && Holds(e.self.value, n) && p in s.procs && Holds(s.procs[p], n) ==>
          DeliveriesBehind(s.procs[p], n) + (if e.note == Delivered(n) then 1 else 0) <=
          DeliveriesBehind(e.self.value, n))
    && (e.note == Delivered(n) ==>
          && p in s.procs && s.procs[p].Delivery? && s.procs[p].step == n && s.procs[p].stage.Waiting?
          && e.self.Some? && Holds(e.self.value, n))
  }

  lemma HandlerHandsOn(c: Config, s: State, a: Action, n: StepName)
    requires Inv(c, s) && Enabled(c, s, a)
    requires a.Deliver? || a.LoadDocument? || a.ExecuteOk? || a.ExecuteFail? || a.Nack?
    requires Single(s.procs[a.p])
    ensures HandsOn(s, a.p, Act(c, s, a), n)
    ensures Act(c, s, a).spawn == None && (Act(c, s, a).self.Some? ==> Single(Act(c, s, a).self.value))
  {}

  lemma CommitHandsOn(c: Config, s: State, a: Action, n: StepName)
    requires Inv(c, s) && Enabled(c, s, a)
    requires a.MarkRunning? || a.Save? || a.FailAttempt? || a.ReadReady? || a.EndClaims?
    requires Single(s.procs[a.p])
    ensures HandsOn(s, a.p, Act(c, s, a), n)
    ensures Act(c, s, a).spawn == None && (Act(c, s, a).self.Some? ==> Single(Act(c, s, a).self.value))
  {}

  lemma ClaimHandsOn(c: Config, s: State, a: Action, n: StepName)
    requires Inv(c, s) && Enabled(c, s, a) && a.ClaimNext? && Single(s.procs[a.p])
    ensures HandsOn(s, a.p, Act(c, s, a), n)
    ensures Act(c, s, a).spawn == None && (Act(c, s, a).self.Some? ==> Single(Act(c, s, a).self.value))
    ensures Act(c, s, a).note == Claimed(n) ==> n in s.rows && s.rows[n].status == Pending
  {
    assert ProcOk(c.graph, s.rows, s.hist.everDone, s.procs[a.p]);
  }

  lemma RecomputeHandsOn(c: Config, s: State, a: Action, n: StepName)
    requires Enabled(c, s, a) && a.RecomputeStep? && Single(s.procs[a.p])
    ensures HandsOn(s, a.p, Act(c, s, a), n)
    ensures Act(c, s, a).spawn == None && (Act(c, s, a).self.Some? ==> Single(Act(c, s, a).self.value))
  {
    RecomputationHandsOn(s, a.p, n);
  }

  lemma RecomputationHandsOn(s: State, p: nat, n: StepName)
    requires p in s.procs && RecomputeOf(s.procs[p]).Some? && Single(s.procs[p])
    ensures var e := RecomputeEffect(s.rows, s.doc, s.procs[p]);
      HandsOn(s, p, e, n) && e.spawn == None && (e.self.Some? ==> Single(e.self.value))
  {
    hide DeriveDocumentStatus;
  }

  lemma PublishHandsOn(s: State, p: nat, n: StepName)
    requires p in s.procs && Single(s.procs[p]) && s.procs[p].Delivery? && s.procs[p].stage.Publishing?
    ensures HandsOn(s, p, PublishClaimedEffect(s.procs[p]), n)
    ensures var e := PublishClaimedEffect(s.procs[p]); Single(e.self.value) && Single(e.spawn.value)
  {}

  lemma EntryHandsOn(c: Config, s: State, a: Action, n: StepName)
    requires Enabled(c, s, a) && a.PublishEntry? && Single(s.procs[a.p])
    ensures HandsOn(s, a.p, Act(c, s, a), n)
    ensures var e := Act(c, s, a); e.self.Some? && e.spawn.Some? && Single(e.self.value) && Single(e.spawn.value)
  {
    var entries := s.procs[a.p].entries;
    assert entries == [entries[0]] + entries[1..];
    DistinctCons(entries[0], entries[1..]);
  }

  lemma OthersHandOn(c: Config, s: State, a: Action, n: StepName)
    requires Enabled(c, s, a) && (Subject(s, a) in s.procs ==> Single(s.procs[Subject(s, a)]))
    requires a.Ack? || a.DeadLetter? || a.ReceiveWebhook? || a.LookupJob? || a.SettleCallback? || a.EndCreate?
    ensures HandsOn(s, Subject(s, a), Act(c, s, a), n)
    ensures var e := Act(c, s, a);
      (e.self.Some? ==> Single(e.self.value)) && (e.spawn.Some? ==> Single(e.spawn.value))
  {}

  /** A message that goes back to its queue, or is lost, is still one message at most. */
  lemma BreaksHandOn(c: Config, s: State, a: Action, n: StepName)
    requires Enabled(c, s, a) && (a.Crash? || a.Drop?)
    ensures HandsOn(s, a.p, Act(c, s, a), n) && SingleEffect(Act(c, s, a))
  {}

  ghost predicate SingleEffect(e: Effect) {
    (e.self.Some? ==> Single(e.self.value)) && (e.spawn.Some? ==> Single(e.spawn.value))
  }

  lemma ActionHandsOn(c: Config, s: State, a: Action, n: StepName)
    requires Inv(c, s) && Enabled(c, s, a) && !a.Redeliver? && !a.ScanInFlight?
    requires Subject(s, a) in s.procs ==> Single(s.procs[Subject(s, a)])
    ensures HandsOn(s, Subject(s, a), Act(c, s, a), n) && SingleEffect(Act(c, s, a))
    ensures Act(c, s, a).note == Claimed(n) ==> n in s.rows && s.rows[n].status == Pending
  {
    if a.ClaimNext? {
      ClaimHandsOn(c, s, a, n);
    } else {
      ClaimlessHandsOn(c, s, a, n);
      OnlyClaimsClaim(c, s, a, n);
    }
  }

  lemma OnlyClaimsClaim(c: Config, s: State, a: Action, n: StepName)
    requires Enabled(c, s, a) && !a.ClaimNext?
    ensures Act(c, s, a).note != Claimed(n)
  {}

  lemma ClaimlessHandsOn(c: Config, s: State, a: Action, n: StepName)
    requires Inv(c, s) && Enabled(c, s, a) && !a.Redeliver? && !a.ScanInFlight? && !a.ClaimNext?
    requires Subject(s, a) in s.procs ==> Single(s.procs[Subject(s, a)])
    ensures HandsOn(s, Subject(s, a), Act(c, s, a), n) && SingleEffect(Act(c, s, a))
  {
    if a.Deliver? || a.LoadDocument? || a.ExecuteOk? || a.ExecuteFail? || a.Nack? {
      HandlerHandsOn(c, s, a, n);
    } else if a.MarkRunning? || a.Save? || a.FailAttempt? || a.ReadReady? || a.EndClaims? {
      CommitHandsOn(c, s, a, n);
    } else if a.RecomputeStep? {
      RecomputeHandsOn(c, s, a, n);
    } else if a.PublishClaimed? {
      PublishHandsOn(s, a.p, n);
    } else if a.PublishEntry? {
      EntryHandsOn(c, s, a, n);
    } else if a.Crash? || a.Drop? {
      BreaksHandOn(c, s, a, n);
    } else if !a.ReapNext? && !a.ScanCallbacks? && !a.EndReap? {
      OthersHandOn(c, s, a, n);
    }
  }

  lemma HoldersLeftPending(c: Config, s: State, p: nat, n: StepName)
    requires Inv(c, s) && p in s.procs && Holds(s.procs[p], n)
    ensures LeftPending(s.rows, n)
  {
    assert ProcOk(c.graph, s.rows, s.hist.everDone, s.procs[p]);
  }

  lemma ApplyKeepsHolder(c: Config, s: State, p: nat, e: Effect, q: nat, n: StepName)
    requires Inv(c, s) && OneHolderEach(s) && HandsOn(s, p, e, n)
        && (p in s.procs || (p == s.nextId && e.self == None))
    requires e.note == Claimed(n) ==> n in s.rows && s.rows[n].status == Pending
    requires q in Apply(s, p, e).procs
    ensures HolderOk(Apply(s, p, e), q, n)
  {
    var s' := Apply(s, p, e);
    if Holds(s'.procs[q], n) {
      if e.note == Claimed(n) {
        forall w | w in s.procs ensures !Holds(s.procs[w], n) {
          if Holds(s.procs[w], n) {
            HoldersLeftPending(c, s, w, n);
          }
        }
      } else {
        HolderIsHandedOn(s, p, e, q, n);
      }
    }
  }

  lemma HolderIsHandedOn(s: State, p: nat, e: Effect, q: nat, n: StepName)
    requires OneHolderEach(s) && HandsOn(s, p, e, n) && e.note != Claimed(n)
    requires p in s.procs || (p == s.nextId && e.self == None)
    requires q in Apply(s, p, e).procs && Holds(Apply(s, p, e).procs[q], n)
    ensures HolderOk(Apply(s, p, e), q, n)
  {
    hide Single, LeftPending;
    assert p in s.procs ==> HolderOk(s, p, n);
    assert q in s.procs ==> HolderOk(s, q, n);
  }

  /** Whatever crashes or is lost: no two processes ever hold one step. */
  lemma NextKeepsOneHolder(c: Config, s: State, a: Action, s': State)
    requires Inv(c, s) && OneHolderEach(s) && Next(c, s, a, s') && !a.Redeliver? && !a.ScanInFlight?
    requires Evolve(s.rows, s.hist.everDone, s'.rows, s'.hist.everDone)
    ensures OneHolderEach(s')
  {
    hide Inv, Enabled, Act, HandsOn, HolderOk, Single, SingleEffect;
    var p, e := Subject(s, a), Act(c, s, a);
    SubjectIsKnown(c, s, a);
    forall q, n | q in s'.procs ensures HolderOk(s', q, n) {
      ActionHandsOn(c, s, a, n);
      ApplyKeepsHolder(c, s, p, e, q, n);
    }
    forall n | !LeftPending(s'.rows, n) ensures s'.hist.notes[Delivered(n)] == 0 {
      ActionHandsOn(c, s, a, n);
      PendingIsNotDelivered(c, s, p, e, n);
    }
    ActionHandsOn(c, s, a, Ocr);
    SinglesStay(s, p, e);
  }

  lemma SinglesStay(s: State, p: nat, e: Effect)
    requires OneHolderEach(s) && SingleEffect(e)
    ensures forall q :: q in Apply(s, p, e).procs ==> Single(Apply(s, p, e).procs[q])
  {
    hide Single, HolderOk;
  }

  lemma PendingIsNotDelivered(c: Config, s: State, p: nat, e: Effect, n: StepName)
    requires Inv(c, s) && OneHolderEach(s) && HandsOn(s, p, e, n) && !LeftPending(s.rows, n)
    ensures Apply(s, p, e).hist.notes[Delivered(n)] == 0
  {
    if e.note == Delivered(n) {
      HoldersLeftPending(c, s, p, n);
    }
  }

  lemma NextKeepsOneMessage(c: Config, s: State, a: Action, s': State)
    requires Inv(c, s) && OneMessageEach(c, s) && Next(c, s, a, s')
    requires !a.Crash? && !a.Drop? && !a.Redeliver? && !a.ScanInFlight?
    requires Evolve(s.rows, s.hist.everDone, s'.rows, s'.hist.everDone) && RetryInv(c, s)
    ensures OneMessageEach(c, s')
  {
    var p, e := Subject(s, a), Act(c, s, a);
    NextKeepsOneHolder(c, s, a, s');
    forall n ensures s'.hist.notes[Delivered(n)] <= c.maxAttempts {
      ActionHandsOn(c, s, a, n);
      DeliveriesStayBounded(c, s, p, e, n);
    }
  }

  lemma SubjectIsKnown(c: Config, s: State, a: Action)
    requires Enabled(c, s, a)
    ensures Subject(s, a) in s.procs || (Subject(s, a) == s.nextId && Act(c, s, a).self == None)
  {}

  lemma DeliveriesStayBounded(c: Config, s: State, p: nat, e: Effect, n: StepName)
    requires Inv(c, s) && OneMessageEach(c, s) && HandsOn(s, p, e, n) && RetryInv(c, s)
    ensures Apply(s, p, e).hist.notes[Delivered(n)] <= c.maxAttempts
  {
    if e.note == Delivered(n) {
      assert HolderOk(s, p, n) && RetryOk(c, s.rows, s.procs[p]);
    }
  }

  // ---- whole runs ----

  ghost predicate Orderly(c: Config, s: State) {
    Retrying(c, s) && OneMessageEach(c, s)
  }

  lemma InitialOrderly(c: Config)
    requires ValidConfig(c)
    ensures Orderly(c, Initial(c))
  {
    InitialRetrying(c);
    FilterDistinct(c.graph.nodes, n => PredsOf(c.graph, n) == {});
    InitialOneMessage(c);
  }

  lemma InitialOneMessage(c: Config)
    requires Distinct(EntryNodes(c.graph))
    ensures OneMessageEach(c, Initial(c))
  {}

  lemma StepKeepsOrderly(c: Config, r: Run, i: nat)
    requires ValidConfig(c) && IsRun(c, r) && NoOverlapEver(r) && CrashFree(r) && ReaperFree(r) && i < |r.actions|
    requires Orderly(c, r.states[i])
    ensures Orderly(c, r.states[i+1])
  {
    StepKeepsRetrying(c, r, i);
    StepKeepsInv(c, r, i);
    StepOf(c, r, i);
    NextKeepsOneMessage(c, r.states[i], r.actions[i], r.states[i+1]);
  }

  lemma RunOrderly(c: Config, r: Run, i: nat)
    requires ValidConfig(c) && IsRun(c, r) && NoOverlapEver(r) && CrashFree(r) && ReaperFree(r) && i < |r.states|
    ensures Orderly(c, r.states[i])
  {
    var P := (s: State) => Orderly(c, s);
    InitialOrderly(c);
    forall k {:trigger Keeps(r, P, k)} | 0 <= k < |r.states| - 1 ensures Keeps(r, P, k) {
      if P(r.states[k]) {
        StepKeepsOrderly(c, r, k);
      }
    }
    Induct(r, P, 0, i);
  }

  function TotalDelivered(notes: multiset<Note>, nodes: seq<StepName>): nat {
    if nodes == [] then 0 else notes[Delivered(nodes[0])] + TotalDelivered(notes, nodes[1..])
  }

  lemma {:induction false} TotalOfBounded(notes: multiset<Note>, nodes: seq<StepName>, k: nat)
    requires forall n :: n in nodes ==> notes[Delivered(n)] <= k
    ensures TotalDelivered(notes, nodes) <= |nodes| * k
  {
    if nodes != [] {
      assert nodes[0] in nodes;
      TotalOfBounded(notes, nodes[1..], k);
      assert |nodes| * k == k + (|nodes| - 1) * k;
    }
  }

  /** Without crashes and reapers a step is delivered at most `maxAttempts` times, and the whole document
      causes at most `|steps| * maxAttempts` deliveries. */
  lemma DeliveriesAreBounded(c: Config, r: Run, i: nat)
    requires ValidConfig(c) && IsRun(c, r) && NoOverlapEver(r) && CrashFree(r) && ReaperFree(r) && i < |r.states|
    ensures forall n :: r.states[i].hist.notes[Delivered(n)] <= (if n in c.graph.nodes then c.maxAttempts else 0)
    ensures TotalDelivered(r.states[i].hist.notes, c.graph.nodes) <= |c.graph.nodes| * c.maxAttempts
  {
    RunOrderly(c, r, i);
    BoundedPerStep(c, r.states[i]);
    TotalOfBounded(r.states[i].hist.notes, c.graph.nodes, c.maxAttempts);
  }

  lemma BoundedPerStep(c: Config, s: State)
    requires IsDict(c.graph) && Inv(c, s) && OneMessageEach(c, s)
    ensures forall n :: s.hist.notes[Delivered(n)] <= (if n in c.graph.nodes then c.maxAttempts else 0)
  {
    forall n ensures s.hist.notes[Delivered(n)] <= (if n in c.graph.nodes then c.maxAttempts else 0) {
      assert n in c.graph.nodes <==> n in s.rows;
    }
  }

  // ---- termination of the workers ----

  /** More actions than any single delivery can take. */
  function PerDelivery(c: Config): nat { 2 * |c.graph.nodes| + 11 }

  /** How many more actions a delivery can take, at most. */
  function Left(c: Config, stage: Stage): nat {
    match stage
    case Waiting => 0
    case Loaded(_) => 2 * |c.graph.nodes| + 10
    case Checked(_, _) => 2 * |c.graph.nodes| + 9
    case Executing(_, _) => 2 * |c.graph.nodes| + 8
    case Saving(_, _, _) => 2 * |c.graph.nodes| + 7
    case Failing(_, _) => 2 * |c.graph.nodes| + 7
    case Triggering(_) => 2 * |c.graph.nodes| + 6
    case Claiming(_, todo) => 2 * |todo| + 5
    case Publishing(_, _, todo) => 2 * |todo| + 6
    case Recomputing(_, ReadStatuses) => 4
    case Recomputing(_, ReadDocument(_)) => 3
    case Recomputing(_, WriteDocument(_, _)) => 2
    case Acking => 1
    case Nacking => 1
  }

  /** The step whose handler takes this action, if a handler does. */
  function WorksOn(s: State, a: Action): Option<StepName> {
    var p := Subject(s, a);
    if p in s.procs && s.procs[p].Delivery? then Some(s.procs[p].step) else None
  }

  lemma HandlingShrinks(c: Config, s: State, a: Action)
    requires Enabled(c, s, a) && WorksOn(s, a).Some?
    requires !a.Deliver? && !a.DeadLetter?
    requires !a.Crash? && !a.Drop? && !a.Redeliver? && !a.ReceiveWebhook? && !a.ScanInFlight?
    ensures var e := Act(c, s, a); var x := s.procs[a.p];
      if e.self.Some? then e.self.value.Delivery? && e.self.value.step == x.step
          && Left(c, e.self.value.stage) < Left(c, x.stage)
      else Left(c, x.stage) >= 1
  {}

  lemma DeliverStarts(c: Config, s: State, a: Action)
    requires Enabled(c, s, a) && a.Deliver?
    ensures var e := Act(c, s, a);
      && e.note == Delivered(s.procs[a.p].step)
      && e.self.Some? && e.self.value.Delivery? && e.self.value.step == s.procs[a.p].step
      && Left(c, e.self.value.stage) + 1 <= PerDelivery(c)
  {}

  /** `w` actions of handlers of step `n` are paid for by its deliveries, with what is left still covered. */
  ghost predicate Paid(c: Config, s: State, n: StepName, w: nat) {
    && w <= PerDelivery(c) * s.hist.notes[Delivered(n)]
    && forall p {:trigger s.procs[p]} :: p in s.procs && s.procs[p].Delivery? && s.procs[p].step == n ==>
         w + Left(c, s.procs[p].stage) <= PerDelivery(c) * s.hist.notes[Delivered(n)]
  }

  lemma OthersDoNotHold(c: Config, s: State, p: nat, n: StepName)
    requires OneMessageEach(c, s) && p in s.procs && s.procs[p].Delivery? && s.procs[p].step == n
    ensures forall q :: q in s.procs && s.procs[q].Delivery? && s.procs[q].step == n ==> q == p
  {
    assert HolderOk(s, p, n);
    forall q | q in s.procs && s.procs[q].Delivery? && s.procs[q].step == n ensures q == p {
      assert Holds(s.procs[q], n);
    }
  }

  lemma HandlingIsPaid(c: Config, s: State, a: Action, n: StepName, w: nat)
    requires Inv(c, s) && OneMessageEach(c, s) && RetryInv(c, s) && Enabled(c, s, a)
    requires !a.Crash? && !a.Drop? && !a.Redeliver?
    requires Paid(c, s, n, w) && WorksOn(s, a) == Some(n)
    requires !a.Deliver?
    ensures w + 1 <= PerDelivery(c) * s.hist.notes[Delivered(n)]
    ensures var e := Act(c, s, a);
      e.self.Some? && e.self.value.Delivery? ==>
        w + 1 + Left(c, e.self.value.stage) <= PerDelivery(c) * s.hist.notes[Delivered(n)]
  {
    EnabledSubject(c, s, a);
    if a.DeadLetter? {
      RetriesLeft(c, s, a.p);
    } else {
      HandlingShrinks(c, s, a);
    }
  }

  lemma SpawnsWait(c: Config, s: State, a: Action)
    requires Enabled(c, s, a)
    ensures var e := Act(c, s, a); e.spawn.Some? && e.spawn.value.Delivery? ==> e.spawn.value.stage.Waiting?
  {}

  lemma NextKeepsPaid(c: Config, s: State, a: Action, s': State, n: StepName, w: nat)
    requires Inv(c, s) && OneMessageEach(c, s) && RetryInv(c, s) && Next(c, s, a, s')
    requires !a.Crash? && !a.Drop? && !a.Redeliver?
    requires Paid(c, s, n, w)
    ensures Paid(c, s', n, w + if WorksOn(s, a) == Some(n) then 1 else 0)
  {
    SpawnsWait(c, s, a);
    EnabledSubject(c, s, a);
    if WorksOn(s, a) == Some(n) {
      OthersDoNotHold(c, s, a.p, n);
      if a.Deliver? {
        DeliverStarts(c, s, a);
        DeliverPays(c, s, a, s', n, w);
      } else {
        HandlingIsPaid(c, s, a, n, w);
        HandlingPays(c, s, a, s', n, w);
      }
    } else {
      IdlePays(c, s, a, s', n, w);
    }
  }

  lemma DeliverPays(c: Config, s: State, a: Action, s': State, n: StepName, w: nat)
    requires Inv(c, s) && Next(c, s, a, s') && a.Deliver? && s.procs[a.p].step == n && Paid(c, s, n, w)
    requires forall q :: q in s.procs && s.procs[q].Delivery? && s.procs[q].step == n ==> q == a.p
    ensures Paid(c, s', n, w + 1)
  {
    DeliverStarts(c, s, a);
    var k := s.hist.notes[Delivered(n)];
    assert s'.hist.notes[Delivered(n)] == k + 1;
    assert PerDelivery(c) * (k + 1) == PerDelivery(c) * k + PerDelivery(c);
  }

  lemma HandlingPays(c: Config, s: State, a: Action, s': State, n: StepName, w: nat)
    requires Inv(c, s) && Next(c, s, a, s') && WorksOn(s, a) == Some(n) && !a.Deliver?
    requires a.p in s.procs && Subject(s, a) == a.p
    requires forall q :: q in s.procs && s.procs[q].Delivery? && s.procs[q].step == n ==> q == a.p
    requires w + 1 <= PerDelivery(c) * s.hist.notes[Delivered(n)]
    requires var e := Act(c, s, a);
      e.self.Some? && e.self.value.Delivery? ==>
        w + 1 + Left(c, e.self.value.stage) <= PerDelivery(c) * s.hist.notes[Delivered(n)]
    ensures Paid(c, s', n, w + 1)
  {
    SpawnsWait(c, s, a);
    OnlyDeliverDelivers(c, s, a, n);
    assert s'.hist.notes[Delivered(n)] == s.hist.notes[Delivered(n)];
  }

  lemma OnlyDeliverDelivers(c: Config, s: State, a: Action, n: StepName)
    requires Enabled(c, s, a)
    ensures Act(c, s, a).note == Delivered(n) ==> a.Deliver? && s.procs[a.p].step == n
  {}

  lemma IdlePays(c: Config, s: State, a: Action, s': State, n: StepName, w: nat)
    requires Inv(c, s) && Next(c, s, a, s') && WorksOn(s, a) != Some(n) && Paid(c, s, n, w)
    requires !a.Crash? && !a.Drop? && !a.Redeliver?
    ensures Paid(c, s', n, w)
  {
    SpawnsWait(c, s, a);
    StepStaysTheSame(c, s, a);
    OnlyDeliverDelivers(c, s, a, n);
    assert s'.hist.notes[Delivered(n)] == s.hist.notes[Delivered(n)];
  }

  lemma StepStaysTheSame(c: Config, s: State, a: Action)
    requires Enabled(c, s, a)
    ensures var e := Act(c, s, a); e.self.Some? && e.self.value.Delivery? ==> WorksOn(s, a) == Some(e.self.value.step)
  {}

  /** For each action of a run, the step whose handler took it. */
  ghost function Workers(r: Run): seq<Option<StepName>>
    requires |r.states| == |r.actions| + 1
  {
    seq(|r.actions|, i requires 0 <= i < |r.actions| => WorksOn(r.states[i], r.actions[i]))
  }

  /** How many of these actions were taken for step `n`. */
  function Count(who: seq<Option<StepName>>, n: StepName): nat {
    if who == [] then 0
    else Count(who[..|who|-1], n) + (if who[|who|-1] == Some(n) then 1 else 0)
  }

  /** How many were taken by handlers at all. */
  function CountAll(who: seq<Option<StepName>>): nat {
    if who == [] then 0
    else CountAll(who[..|who|-1]) + (if who[|who|-1].Some? then 1 else 0)
  }

  function SumCount(who: seq<Option<StepName>>, nodes: seq<StepName>): nat {
    if nodes == [] then 0 else Count(who, nodes[0]) + SumCount(who, nodes[1..])
  }

  lemma {:induction false} SumCountStep(who: seq<Option<StepName>>, last: Option<StepName>, nodes: seq<StepName>)
    requires Distinct(nodes)
    ensures SumCount(who + [last], nodes) == SumCount(who, nodes) + (if last.Some? && last.value in nodes then 1 else 0)
  {
    if nodes != [] {
      assert nodes == [nodes[0]] + nodes[1..];
      DistinctCons(nodes[0], nodes[1..]);
      SumCountStep(who, last, nodes[1..]);
      assert (who + [last])[..|who|] == who;
    }
  }

  lemma {:induction false} NothingCounted(nodes: seq<StepName>)
    ensures SumCount([], nodes) == 0
  {
    if nodes != [] {
      NothingCounted(nodes[1..]);
    }
  }

  /** Counting per step and adding up is counting everything. */
  lemma {:induction false} CountAllIsSum(who: seq<Option<StepName>>, nodes: seq<StepName>)
    requires Distinct(nodes) && forall i :: 0 <= i < |who| && who[i].Some? ==> who[i].value in nodes
    ensures CountAll(who) == SumCount(who, nodes)
  {
    if who == [] {
      NothingCounted(nodes);
    } else {
      var init, last := who[..|who|-1], who[|who|-1];
      assert who == init + [last];
      CountAllIsSum(init, nodes);
      SumCountStep(init, last, nodes);
    }
  }

  lemma {:induction false} SumCountBounded(who: seq<Option<StepName>>, nodes: seq<StepName>, k: nat)
    requires forall n :: n in nodes ==> Count(who, n) <= k
    ensures SumCount(who, nodes) <= |nodes| * k
  {
    if nodes != [] {
      assert nodes[0] in nodes;
      SumCountBounded(who, nodes[1..], k);
      assert |nodes| * k == k + (|nodes| - 1) * k;
    }
  }

  lemma NextWorker(r: Run, i: nat, n: StepName)
    requires |r.states| == |r.actions| + 1 && i < |r.actions|
    ensures Count(Workers(r)[..i+1], n)
         == Count(Workers(r)[..i], n) + (if WorksOn(r.states[i], r.actions[i]) == Some(n) then 1 else 0)
  {
    var who := Workers(r)[..i+1];
    assert who[..|who|-1] == Workers(r)[..i];
  }

  ghost predicate PaidAt(c: Config, r: Run, n: StepName, i: nat)
    requires |r.states| == |r.actions| + 1
  {
    i <= |r.actions| ==> Paid(c, r.states[i], n, Count(Workers(r)[..i], n))
  }

  lemma PaidStep(c: Config, r: Run, n: StepName, i: nat)
    requires ValidConfig(c) && IsRun(c, r) && NoOverlapEver(r) && CrashFree(r) && ReaperFree(r)
    requires PaidAt(c, r, n, i)
    ensures PaidAt(c, r, n, i + 1)
  {
    if i < |r.actions| {
      RunOrderly(c, r, i);
      StepOf(c, r, i);
      NextWorker(r, i, n);
      NextKeepsPaid(c, r.states[i], r.actions[i], r.states[i+1], n, Count(Workers(r)[..i], n));
    }
  }

  lemma PaidFirst(c: Config, r: Run, n: StepName)
    requires IsRun(c, r)
    ensures PaidAt(c, r, n, 0)
  {}

  lemma WorkIsPaid(c: Config, r: Run, n: StepName, i: nat)
    requires ValidConfig(c) && IsRun(c, r) && NoOverlapEver(r) && CrashFree(r) && ReaperFree(r)
    ensures PaidAt(c, r, n, i)
  {
    var P := (k: nat) => PaidAt(c, r, n, k);
    PaidFirst(c, r, n);
    forall k {:trigger Climbs(P, k)} | 0 <= k < i ensures Climbs(P, k) {
      if P(k) {
        PaidStep(c, r, n, k);
      }
    }
    InductUp(P, i);
  }

  lemma WorkersWorkOnSteps(c: Config, r: Run, i: nat)
    requires ValidConfig(c) && IsRun(c, r) && i < |r.actions| && WorksOn(r.states[i], r.actions[i]).Some?
    ensures WorksOn(r.states[i], r.actions[i]).value in c.graph.nodes
  {
    RunInv(c, r, i);
    var s := r.states[i];
    assert ProcOk(c.graph, s.rows, s.hist.everDone, s.procs[Subject(s, r.actions[i])]);
  }

  lemma StepWorkBounded(c: Config, r: Run, n: StepName)
    requires ValidConfig(c) && IsRun(c, r) && NoOverlapEver(r) && CrashFree(r) && ReaperFree(r)
    requires n in c.graph.nodes
    ensures Count(Workers(r), n) <= PerDelivery(c) * c.maxAttempts
  {
    var i := |r.actions|;
    WorkIsPaid(c, r, n, i);
    assert Workers(r)[..i] == Workers(r);
    DeliveriesAreBounded(c, r, i);
    PaidIsBounded(c, r.states[i], n, Count(Workers(r), n));
  }

  lemma PaidIsBounded(c: Config, s: State, n: StepName, w: nat)
    requires Paid(c, s, n, w) && s.hist.notes[Delivered(n)] <= c.maxAttempts
    ensures w <= PerDelivery(c) * c.maxAttempts
  {
    var k := s.hist.notes[Delivered(n)];
    assert w <= PerDelivery(c) * k;
    Monotone(PerDelivery(c), k, c.maxAttempts);
  }

  lemma Monotone(a: nat, b: nat, d: nat)
    requires b <= d
    ensures a * b <= a * d
  {}

  /** The workers always come to rest: a run without crashes and reapers, however long and whatever
      webhooks arrive, contains at most this many actions of handlers. */
  lemma WorkersTerminate(c: Config, r: Run)
    requires ValidConfig(c) && IsRun(c, r) && NoOverlapEver(r) && CrashFree(r) && ReaperFree(r)
    ensures CountAll(Workers(r)) <= |c.graph.nodes| * (PerDelivery(c) * c.maxAttempts)
  {
    forall i | 0 <= i < |r.actions| && Workers(r)[i].Some? ensures Workers(r)[i].value in c.graph.nodes {
      WorkersWorkOnSteps(c, r, i);
    }
    CountAllIsSum(Workers(r), c.graph.nodes);
    forall n | n in c.graph.nodes ensures Count(Workers(r), n) <= PerDelivery(c) * c.maxAttempts {
      StepWorkBounded(c, r, n);
    }
    SumCountBounded(Workers(r), c.graph.nodes, PerDelivery(c) * c.maxAttempts);
  }
}

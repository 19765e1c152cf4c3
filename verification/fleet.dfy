/** All documents together. Deliveries, commits and recomputations belong to one document; a webhook reaches
    the whole system until its job is looked up, and a reaper's queries read the rows of all documents. What
    one document sees of a run of the system is a run of the protocol, so every theorem about runs holds for
    each document; and a job id never belongs to two of them. */
module Fleets {
  import opened Model
  import opened Dag
  import opened Rules
  import opened Protocol
  import opened Claims
  import opened NoOverlaps
  import opened Status
  import opened Outcomes

  type DocId = nat

  type Fleet = map<DocId, State>

  /** Processes are numbered within each document. A webhook or a reaper that concerns all documents has one
      number in each of them. */
  datatype FleetAction =
    | Local(document: DocId, action: Action)
    | Receive(hook: Hook)
    | Lookup(job: JobId, ids: map<DocId, nat>)
    | Scan(picked: map<DocId, seq<StepName>>)
    | ScanMore(readers: map<DocId, nat>, late: map<DocId, seq<StepName>>)
    | EndScan(enders: map<DocId, nat>)

  /** Actions that one document takes by itself. */
  predicate IsLocal(a: Action) {
    !a.ReceiveWebhook? && !a.LookupJob? && !a.ScanInFlight? && !a.ScanCallbacks? && !a.EndReap?
  }

  /** What the action does in document `d`. */
  function ActionIn(a: FleetAction, d: DocId): Option<Action> {
    match a
    case Local(document, action) => if document == d then Some(action) else None
    case Receive(hook) => Some(ReceiveWebhook(hook))
    case Lookup(_, ids) => if d in ids then Some(LookupJob(ids[d])) else None
    case Scan(picked) => if d in picked then Some(ScanInFlight(picked[d])) else None
    case ScanMore(readers, late) => if d in readers && d in late then Some(ScanCallbacks(readers[d], late[d])) else None
    case EndScan(enders) => if d in enders then Some(EndReap(enders[d])) else None
  }

  /** The partner hands out a job id once, whatever document asks. */
  ghost predicate NewJob(f: Fleet, a: Action) {
    a.ExecuteOk? && a.output.JobHandle? ==> forall d :: d in f ==> a.output.job !in f[d].hist.issued
  }

  ghost predicate FleetEnabled(f: Fleet, a: FleetAction) {
    match a
    case Local(document, action) => document in f && IsLocal(action) && NewJob(f, action)
    case Receive(_) => true
    case Lookup(job, ids) =>
      ids.Keys == f.Keys && forall d :: d in ids ==> AsksFor(f[d], ids[d], job)
    case Scan(picked) => picked.Keys == f.Keys
    case ScanMore(readers, late) => readers.Keys == f.Keys && late.Keys == f.Keys
    case EndScan(enders) => enders.Keys == f.Keys
  }

  ghost predicate AsksFor(s: State, p: nat, job: JobId) {
    p in s.procs && s.procs[p].Webhook? && s.procs[p].hook.job == job
  }

  /** Document `d` takes its part in the action, or stays as it is. */
  ghost predicate Moves(c: Config, f: Fleet, a: FleetAction, f': Fleet, d: DocId)
    requires d in f && d in f'
  {
    match ActionIn(a, d)
    case None => f'[d] == f[d]
    case Some(action) => Next(c, f[d], action, f'[d])
  }

  ghost predicate FleetNext(c: Config, f: Fleet, a: FleetAction, f': Fleet) {
    && FleetEnabled(f, a) && f'.Keys == f.Keys
    && forall d {:trigger Moves(c, f, a, f', d)} :: d in f ==> Moves(c, f, a, f', d)
  }

  // ---- runs of the system ----

  datatype FleetRun = FleetRun(fleets: seq<Fleet>, actions: seq<FleetAction>)

  ghost predicate IsFleetRun(c: Config, r: FleetRun) {
    && |r.fleets| == |r.actions| + 1
    && (forall d :: d in r.fleets[0] ==> r.fleets[0][d] == Initial(c))
    && (forall i {:trigger FleetStepAt(c, r, i)} :: 0 <= i < |r.actions| ==> FleetStepAt(c, r, i))
  }

  ghost predicate FleetStepAt(c: Config, r: FleetRun, i: nat)
    requires i < |r.actions| && |r.fleets| == |r.actions| + 1
  {
    FleetNext(c, r.fleets[i], r.actions[i], r.fleets[i+1])
  }

  lemma {:induction false} SameDocuments(c: Config, r: FleetRun, i: nat)
    requires IsFleetRun(c, r) && i < |r.fleets|
    ensures r.fleets[i].Keys == r.fleets[0].Keys
  {
    if i > 0 {
      SameDocuments(c, r, i - 1);
      assert FleetStepAt(c, r, i - 1);
    }
  }

  // ---- what one document sees ----

  /** The states that document `d` goes through in the first `n` actions, and its own actions. */
  ghost function View(c: Config, r: FleetRun, d: DocId, n: nat): (v: Run)
    requires IsFleetRun(c, r) && d in r.fleets[0] && n < |r.fleets|
    ensures v.states != []
  {
    SameDocuments(c, r, n);
    if n == 0 then Run([r.fleets[0][d]], [])
    else
      var before := View(c, r, d, n - 1);
      match ActionIn(r.actions[n-1], d)
      case None => before
      case Some(a) => Run(before.states + [r.fleets[n][d]], before.actions + [a])
  }

  lemma AppendStep(c: Config, v: Run, a: Action, s: State)
    requires IsRun(c, v) && Next(c, v.states[|v.states|-1], a, s)
    ensures IsRun(c, Run(v.states + [s], v.actions + [a]))
  {
    hide Next, Initial;
    var v' := Run(v.states + [s], v.actions + [a]);
    forall i {:trigger StepAt(c, v', i)} | 0 <= i < |v'.actions| ensures StepAt(c, v', i) {
      if i < |v.actions| {
        assert StepAt(c, v, i);
      }
    }
  }

  /** The projection theorem: what a document sees is a run of the protocol, and ends where the document is. */
  lemma {:induction false} ViewIsRun(c: Config, r: FleetRun, d: DocId, n: nat)
    requires IsFleetRun(c, r) && d in r.fleets[0] && n < |r.fleets|
    ensures d in r.fleets[n] && IsRun(c, View(c, r, d, n))
    ensures var v := View(c, r, d, n); v.states[|v.states|-1] == r.fleets[n][d]
  {
    hide Next, Initial;
    SameDocuments(c, r, n);
    if n > 0 {
      SameDocuments(c, r, n - 1);
      ViewIsRun(c, r, d, n - 1);
      assert FleetStepAt(c, r, n - 1);
      assert Moves(c, r.fleets[n-1], r.actions[n-1], r.fleets[n], d);
      if ActionIn(r.actions[n-1], d).Some? {
        AppendStep(c, View(c, r, d, n - 1), ActionIn(r.actions[n-1], d).value, r.fleets[n][d]);
      }
    }
  }

  /** In no document do writers of one step overlap. */
  ghost predicate FleetNoOverlap(r: FleetRun) {
    forall i, d {:trigger r.fleets[i][d]} :: 0 <= i < |r.fleets| && d in r.fleets[i] ==> NoOverlap(r.fleets[i][d])
  }

  lemma {:induction false} ViewNoOverlap(c: Config, r: FleetRun, d: DocId, n: nat)
    requires IsFleetRun(c, r) && d in r.fleets[0] && n < |r.fleets| && FleetNoOverlap(r)
    ensures NoOverlapEver(View(c, r, d, n))
  {
    hide NoOverlap, Next, Initial;
    var v := View(c, r, d, n);
    SameDocuments(c, r, n);
    assert NoOverlap(r.fleets[n][d]);
    if n > 0 {
      ViewNoOverlap(c, r, d, n - 1);
      var before := View(c, r, d, n - 1);
      forall i {:trigger NoOverlapIn(v, i)} | 0 <= i < |v.states| ensures NoOverlapIn(v, i) {
        if i < |before.states| {
          assert NoOverlapIn(before, i);
        }
      }
    }
  }

  // ---- theorems for every document ----

  /** The ready gate, for each document of the system. */
  lemma EveryReadyDocumentIsConfirmed(c: Config, r: FleetRun, d: DocId, n: nat)
    requires ValidConfig(c) && IsFleetRun(c, r) && FleetNoOverlap(r) && d in r.fleets[0] && n < |r.fleets|
    requires d in r.fleets[n] && r.fleets[n][d].doc == Ready
    ensures var s := r.fleets[n][d];
      && (forall m :: m in c.graph.nodes ==> m in s.rows && s.rows[m].status == Done)
      && ExternalCall in s.rows && s.rows[ExternalCall].externalJobId.Some?
      && Confirmed(s.hooks, s.rows[ExternalCall])
  {
    ViewIsRun(c, r, d, n);
    ViewNoOverlap(c, r, d, n);
    var v := View(c, r, d, n);
    ReadyGate(c, v, |v.states| - 1);
  }

  // ---- job ids are nobody else's ----

  ghost predicate JobsDisjoint(f: Fleet) {
    forall d, e :: d in f && e in f && d != e ==> f[d].hist.issued !! f[e].hist.issued
  }

  /** What one action does to the ids handed out: at most one new one, to one document. */
  lemma IssuedBy(c: Config, s: State, a: Action, s': State)
    requires Next(c, s, a, s')
    ensures s'.hist.issued ==
      if a.ExecuteOk? && a.output.JobHandle? then s.hist.issued + {a.output.job} else s.hist.issued
  {
    NothingElseIssues(c, s, a);
  }

  lemma NothingElseIssues(c: Config, s: State, a: Action)
    requires Enabled(c, s, a)
    ensures Act(c, s, a).issue == if a.ExecuteOk? && a.output.JobHandle? then Some(a.output.job) else None
  {}

  /** The new id, if any, that document `d` gets by this action. */
  function JobFor(a: FleetAction, d: DocId): set<JobId> {
    match ActionIn(a, d)
    case Some(ExecuteOk(_, JobHandle(job))) => {job}
    case _ => {}
  }

  lemma IssuedIn(c: Config, f: Fleet, a: FleetAction, f': Fleet, d: DocId)
    requires d in f && FleetNext(c, f, a, f')
    ensures d in f' && f'[d].hist.issued == f[d].hist.issued + JobFor(a, d)
  {
    hide Next;
    assert Moves(c, f, a, f', d);
    if ActionIn(a, d).Some? {
      IssuedBy(c, f[d], ActionIn(a, d).value, f'[d]);
    }
  }

  lemma NextKeepsJobsDisjoint(c: Config, f: Fleet, a: FleetAction, f': Fleet)
    requires JobsDisjoint(f) && FleetNext(c, f, a, f')
    ensures JobsDisjoint(f')
  {
    hide Next, Moves;
    forall d, e | d in f' && e in f' && d != e ensures f'[d].hist.issued !! f'[e].hist.issued {
      IssuedIn(c, f, a, f', d);
      IssuedIn(c, f, a, f', e);
    }
  }

  lemma {:induction false} RunJobsDisjoint(c: Config, r: FleetRun, n: nat)
    requires IsFleetRun(c, r) && n < |r.fleets|
    ensures JobsDisjoint(r.fleets[n])
  {
    if n > 0 {
      hide FleetNext, Initial;
      RunJobsDisjoint(c, r, n - 1);
      assert FleetStepAt(c, r, n - 1);
      NextKeepsJobsDisjoint(c, r.fleets[n-1], r.actions[n-1], r.fleets[n]);
    }
  }

  ghost predicate HasJob(s: State, job: JobId) {
    ExternalCall in s.rows && s.rows[ExternalCall].externalJobId == Some(job)
  }

  /** The lookup by job id finds at most one document, so it never fails for finding several. */
  lemma OneDocumentPerJob(c: Config, r: FleetRun, n: nat, d: DocId, e: DocId, job: JobId)
    requires IsFleetRun(c, r) && n < |r.fleets|
    requires d in r.fleets[n] && e in r.fleets[n] && HasJob(r.fleets[n][d], job) && HasJob(r.fleets[n][e], job)
    ensures d == e
  {
    SameDocuments(c, r, n);
    RunJobsDisjoint(c, r, n);
    JobIsIssued(c, r, n, d, job);
    JobIsIssued(c, r, n, e, job);
  }

  lemma JobIsIssued(c: Config, r: FleetRun, n: nat, d: DocId, job: JobId)
    requires IsFleetRun(c, r) && n < |r.fleets| && d in r.fleets[0] && d in r.fleets[n] && HasJob(r.fleets[n][d], job)
    ensures job in r.fleets[n][d].hist.issued
  {
    ViewIsRun(c, r, d, n);
    var v := View(c, r, d, n);
    StoredJobsWereIssued(c, v, |v.states| - 1);
    assert RowIssued(r.fleets[n][d].hist.issued, r.fleets[n][d].rows[ExternalCall]);
  }

  /** A webhook is decided for one document at most: after its lookup, no other document has a process left
      for it. */
  lemma LookupSelectsOne(c: Config, r: FleetRun, i: nat, k: nat, d: DocId, e: DocId)
    requires IsFleetRun(c, r) && i < |r.actions| && k == i + 1
    requires r.actions[i].Lookup?
    requires d in r.fleets[0] && e in r.fleets[0] && d != e
    ensures d in r.fleets[k] && e in r.fleets[k] && d in r.actions[i].ids && e in r.actions[i].ids
    ensures r.actions[i].ids[d] in r.fleets[k][d].procs ==> r.actions[i].ids[e] !in r.fleets[k][e].procs
  {
    SameDocuments(c, r, i);
    SameDocuments(c, r, k);
    assert FleetStepAt(c, r, i);
    LookupIn(c, r.fleets[i], r.actions[i], r.fleets[k], d);
    LookupIn(c, r.fleets[i], r.actions[i], r.fleets[k], e);
    hide FleetNext, HasJob, IsFleetRun;
    var job := r.actions[i].job;
    if HasJob(r.fleets[i][d], job) && HasJob(r.fleets[i][e], job) {
      OneDocumentPerJob(c, r, i, d, e, job);
    }
  }

  lemma LookupIn(c: Config, f: Fleet, a: FleetAction, f': Fleet, d: DocId)
    requires d in f && FleetNext(c, f, a, f') && a.Lookup?
    ensures d in f' && d in a.ids
    ensures a.ids[d] in f'[d].procs ==> HasJob(f[d], a.job)
  {
    assert Moves(c, f, a, f', d);
    assert AsksFor(f[d], a.ids[d], a.job);
    if a.ids[d] in f'[d].procs {
      LookupKeeps(c, f[d], a.ids[d], f'[d]);
    }
  }

  lemma LookupKeeps(c: Config, s: State, p: nat, s': State)
    requires Next(c, s, LookupJob(p), s') && p in s'.procs
    ensures HasJob(s, s.procs[p].hook.job)
  {}
}

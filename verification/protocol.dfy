/** One document's pipeline as a transition system: workers, webhooks, the reaper and the creator
    share the document's step rows, its status and the broker's messages. Every action is one
    commit, one read, one publish or one broker operation. Actions of different actors interleave
    freely, and nothing below assumes that two deliveries of one step exclude each other. */
module Protocol {
  import opened Model
  import opened Dag
  import opened Rules

  datatype Config = Config(graph: Graph, maxAttempts: nat)

  ghost predicate ValidConfig(c: Config) {
    Valid(c.graph) && TerminalNodes(c.graph) == [ExternalCall] && c.maxAttempts >= 1
  }

  /** Where `recompute_document_status` stands. `stored` is the session's Document object. */
  datatype Recompute =
    | ReadStatuses
    | ReadDocument(derived: DocumentStatus)
    | WriteDocument(derived: DocumentStatus, stored: DocumentStatus)

  /** Where a broker message stands: waiting in its queue, or how far its handler got. `rows` are
      the row objects the handler's session loaded, `seen` is the Document object it loaded. */
  datatype Stage =
    | Waiting
    | Loaded(rows: Rows)
    | Checked(rows: Rows, seen: DocumentStatus)
    | Executing(rows: Rows, seen: DocumentStatus)
    | Saving(rows: Rows, seen: DocumentStatus, output: Output)
    | Failing(rows: Rows, seen: DocumentStatus)
    | Triggering(seen: DocumentStatus)
    | Claiming(seen: DocumentStatus, todo: seq<StepName>)
    | Publishing(seen: DocumentStatus, claimed: StepName, todo: seq<StepName>)
    | Recomputing(seen: DocumentStatus, at: Recompute)
    | Acking
    | Nacking

  datatype HookStage = Recorded | Deciding(row: Row) | HookRecomputing(hookAt: Recompute)

  datatype Selected = Selected(step: StepName, row: Row)

  /** `InFlight` handles stale QUEUED and RUNNING rows, `Callbacks` handles stale AWAITING_CALLBACK rows. */
  datatype Phase = InFlight | Callbacks

  datatype Proc =
    | Delivery(step: StepName, returned: nat, stage: Stage)
    | Webhook(hook: Hook, hookStage: HookStage)
    | Reaper(phase: Phase, selected: seq<Selected>, recomputing: Option<Recompute>)
    | Creator(entries: seq<StepName>)

  /** What happened, for stating properties; no guard reads it. */
  datatype Note = Quiet | Delivered(step: StepName) | Claimed(step: StepName) | Triggered(step: StepName) | LostCall

  datatype History = History(notes: multiset<Note>, issued: set<JobId>, everDone: set<StepName>)

  datatype State = State(
    rows: Rows, doc: DocumentStatus, procs: map<nat, Proc>, nextId: nat,
    hooks: seq<Hook>, events: seq<Event>, hist: History)

  datatype Action =
    | Deliver(p: nat)
    | LoadDocument(p: nat)
    | MarkRunning(p: nat)
    | ExecuteOk(p: nat, output: Output)
    | ExecuteFail(p: nat)
    | Save(p: nat)
    | FailAttempt(p: nat)
    | ReadReady(p: nat)
    | ClaimNext(p: nat)
    | PublishClaimed(p: nat)
    | EndClaims(p: nat)
    | RecomputeStep(p: nat)
    | Ack(p: nat)
    | Nack(p: nat)
    | DeadLetter(p: nat)
    | ReceiveWebhook(hook: Hook)
    | LookupJob(p: nat)
    | SettleCallback(p: nat)
    | ScanInFlight(picked: seq<StepName>)
    | ReapNext(p: nat)
    | ScanCallbacks(p: nat, picked: seq<StepName>)
    | EndReap(p: nat)
    | PublishEntry(p: nat)
    | EndCreate(p: nat)
    | Crash(p: nat)
    | Drop(p: nat)
    | Redeliver(p: nat)

  // ---- one action's effect ----

  datatype RowWrite = NoWrite | WriteRow(step: StepName, row: Row)

  /** `self` is the acting process afterwards (`None`: it is gone). */
  datatype Effect = Effect(
    self: Option<Proc>, spawn: Option<Proc>, write: RowWrite, doc: Option<DocumentStatus>,
    emit: Option<Event>, hook: Option<Hook>, issue: Option<JobId>, note: Note)

  function Become(x: Proc): Effect {
    Effect(Some(x), None, NoWrite, None, None, None, None, Quiet)
  }

  const VANISH: Effect := Effect(None, None, NoWrite, None, None, None, None, Quiet)

  function NewMessage(step: StepName): Proc { Delivery(step, 0, Waiting) }

  function Selection(rows: Rows, picked: seq<StepName>): seq<Selected>
    requires forall n :: n in picked ==> n in rows
  {
    seq(|picked|, i requires 0 <= i < |picked| => Selected(picked[i], rows[picked[i]]))
  }

  predicate CanPick(rows: Rows, picked: seq<StepName>, statuses: set<StepStatus>) {
    && (forall i, j :: 0 <= i < j < |picked| ==> picked[i] != picked[j])
    && (forall n :: n in picked ==> n in rows && rows[n].status in statuses)
  }

  function Subject(s: State, a: Action): nat {
    match a
    case ReceiveWebhook(_) => s.nextId
    case ScanInFlight(_) => s.nextId
    case _ => a.p
  }

  predicate HandlerAt(s: State, p: nat) {
    p in s.procs && s.procs[p].Delivery? && s.procs[p].step in s.rows
  }

  predicate RecomputeAt(s: State, p: nat) {
    p in s.procs && RecomputeOf(s.procs[p]).Some?
  }

  function RecomputeOf(x: Proc): Option<Recompute> {
    match x
    case Delivery(_, _, Recomputing(_, at)) => Some(at)
    case Webhook(_, HookRecomputing(at)) => Some(at)
    case Reaper(_, _, at) => at
    case _ => None
  }

  /** The process once its recomputation stands at `at`. */
  function WithRecompute(x: Proc, at: Recompute): Proc
    requires RecomputeOf(x).Some?
  {
    match x
    case Delivery(_, _, _) => x.(stage := Recomputing(x.stage.seen, at))
    case Webhook(_, _) => x.(hookStage := HookRecomputing(at))
    case Reaper(_, _, _) => x.(recomputing := Some(at))
  }

  /** The process after `recompute_document_status` returned: a handler acks, a webhook has
      answered, the reaper goes on with its loop. */
  function AfterRecompute(x: Proc): Option<Proc>
    requires RecomputeOf(x).Some?
  {
    match x
    case Delivery(_, _, _) => Some(x.(stage := Acking))
    case Webhook(_, _) => None
    case Reaper(_, _, _) => Some(x.(recomputing := None))
  }

  ghost predicate Enabled(c: Config, s: State, a: Action) {
    match a
    case Deliver(p) => HandlerAt(s, p) && s.procs[p].stage.Waiting?
    case LoadDocument(p) => HandlerAt(s, p) && s.procs[p].stage.Loaded? && s.procs[p].step in s.procs[p].stage.rows
    case MarkRunning(p) => HandlerAt(s, p) && s.procs[p].stage.Checked? && s.procs[p].step in s.procs[p].stage.rows
    case ExecuteOk(p, output) =>
      && HandlerAt(s, p) && s.procs[p].stage.Executing?
      && TransformInput(s.procs[p].step, s.procs[p].stage.rows).Some?
      && Produces(s.procs[p].step, output)
      && (output.JobHandle? ==> output.job !in s.hist.issued)
    case ExecuteFail(p) => HandlerAt(s, p) && s.procs[p].stage.Executing?
    case Save(p) => HandlerAt(s, p) && s.procs[p].stage.Saving? && s.procs[p].step in s.procs[p].stage.rows
    case FailAttempt(p) => HandlerAt(s, p) && s.procs[p].stage.Failing? && s.procs[p].step in s.procs[p].stage.rows
    case ReadReady(p) => HandlerAt(s, p) && s.procs[p].stage.Triggering?
    case ClaimNext(p) =>
      && HandlerAt(s, p) && s.procs[p].stage.Claiming? && s.procs[p].stage.todo != []
      && s.procs[p].stage.todo[0] in s.rows
    case PublishClaimed(p) => HandlerAt(s, p) && s.procs[p].stage.Publishing?
    case EndClaims(p) => HandlerAt(s, p) && s.procs[p].stage.Claiming? && s.procs[p].stage.todo == []
    case RecomputeStep(p) => RecomputeAt(s, p)
    case Ack(p) => HandlerAt(s, p) && s.procs[p].stage.Acking?
    case Nack(p) => HandlerAt(s, p) && s.procs[p].stage.Nacking?
    case DeadLetter(p) => HandlerAt(s, p) && s.procs[p].stage.Waiting? && s.procs[p].returned >= c.maxAttempts
    case ReceiveWebhook(_) => true
    case LookupJob(p) => p in s.procs && s.procs[p].Webhook? && s.procs[p].hookStage.Recorded? && ExternalCall in s.rows
    case SettleCallback(p) => p in s.procs && s.procs[p].Webhook? && s.procs[p].hookStage.Deciding?
        && ExternalCall in s.rows
    case ScanInFlight(picked) => CanPick(s.rows, picked, {Queued, Running})
    case ReapNext(p) =>
      && p in s.procs && s.procs[p].Reaper? && s.procs[p].recomputing == None
      && s.procs[p].selected != [] && s.procs[p].selected[0].step in s.rows
    case ScanCallbacks(p, picked) =>
      && p in s.procs && s.procs[p].Reaper? && s.procs[p].recomputing == None
      && s.procs[p].phase == InFlight && s.procs[p].selected == []
      && CanPick(s.rows, picked, {AwaitingCallback})
    case EndReap(p) =>
      && p in s.procs && s.procs[p].Reaper? && s.procs[p].recomputing == None
      && s.procs[p].phase == Callbacks && s.procs[p].selected == []
    case PublishEntry(p) => p in s.procs && s.procs[p].Creator? && s.procs[p].entries != []
    case EndCreate(p) => p in s.procs && s.procs[p].Creator? && s.procs[p].entries == []
    case Crash(p) => p in s.procs && !(s.procs[p].Delivery? && s.procs[p].stage.Waiting?)
    case Drop(p) => HandlerAt(s, p) && !s.procs[p].stage.Waiting?
    case Redeliver(p) => HandlerAt(s, p) && !s.procs[p].stage.Waiting?
  }

  /** `handle`, lines 91-103: load all rows of the document, then its Document. */
  function DeliverEffect(rows: Rows, x: Proc): Effect
    requires x.Delivery? && x.step in rows
  {
    if TerminalForRun(rows[x.step].status) then Become(x.(stage := Acking)).(note := Delivered(x.step))
    else Become(x.(stage := Loaded(rows))).(note := Delivered(x.step))
  }

  function LoadDocumentEffect(doc: DocumentStatus, x: Proc): Effect
    requires x.Delivery? && x.stage.Loaded?
  {
    if doc == Failed then Become(x.(stage := Acking)) else Become(x.(stage := Checked(x.stage.rows, doc)))
  }

  function MarkRunningEffect(stored: Row, x: Proc): Effect
    requires x.Delivery? && x.stage.Checked? && x.step in x.stage.rows
  {
    var loaded := x.stage.rows[x.step];
    var running := loaded.(status := Running);
    Become(x.(stage := Executing(x.stage.rows[x.step := running], x.stage.seen)))
      .(write := WriteRow(x.step, Flush(loaded, running, stored)), emit := Some(StepEvent(x.step, Running)))
  }

  function ExecuteOkEffect(x: Proc, output: Output): Effect
    requires x.Delivery? && x.stage.Executing?
  {
    Become(x.(stage := Saving(x.stage.rows, x.stage.seen, output)))
      .(issue := if output.JobHandle? then Some(output.job) else None)
  }

  function SaveEffect(stored: Row, x: Proc): Effect
    requires x.Delivery? && x.stage.Saving? && x.step in x.stage.rows
  {
    var loaded := x.stage.rows[x.step];
    var saved := Saved(loaded, x.stage.output);
    Become(x.(stage := if saved.status == Done then Triggering(x.stage.seen) else Acking))
      .(write := WriteRow(x.step, Flush(loaded, saved, stored)), emit := Some(StepEvent(x.step, saved.status)))
  }

  function FailAttemptEffect(stored: Row, x: Proc, maxAttempts: nat): Effect
    requires x.Delivery? && x.stage.Failing? && x.step in x.stage.rows
  {
    var loaded := x.stage.rows[x.step];
    var failed := FailedOnce(loaded, maxAttempts);
    var write := WriteRow(x.step, Flush(loaded, failed, stored));
    if failed.status == Error then
      Become(x.(stage := Recomputing(x.stage.seen, ReadStatuses)))
        .(write := write, emit := Some(StepEvent(x.step, Error)))
    else
      Become(x.(stage := Nacking)).(write := write)
  }

  /** `claim_step`: the conditional update is atomic on the stored row. */
  function ClaimNextEffect(rows: Rows, x: Proc): Effect
    requires x.Delivery? && x.stage.Claiming? && x.stage.todo != [] && x.stage.todo[0] in rows
  {
    var n, rest := x.stage.todo[0], x.stage.todo[1..];
    if rows[n].status == Pending then
      Become(x.(stage := Publishing(x.stage.seen, n, rest)))
        .(write := WriteRow(n, rows[n].(status := Queued)), emit := Some(StepEvent(n, Queued)), note := Claimed(n))
    else
      Become(x.(stage := Claiming(x.stage.seen, rest)))
  }

  function PublishClaimedEffect(x: Proc): Effect
    requires x.Delivery? && x.stage.Publishing?
  {
    Become(x.(stage := Claiming(x.stage.seen, x.stage.todo)))
      .(spawn := Some(NewMessage(x.stage.claimed)), note := Triggered(x.stage.claimed))
  }

  /** `recompute_document_status`: read the statuses, get the Document (a handler's session already
      holds it), then write and notify if the status changed. */
  function RecomputeEffect(rows: Rows, doc: DocumentStatus, x: Proc): Effect
    requires RecomputeOf(x).Some?
  {
    match RecomputeOf(x).value
    case ReadStatuses =>
      var derived := DeriveDocumentStatus(rows);
      if x.Delivery? then Become(WithRecompute(x, WriteDocument(derived, x.stage.seen)))
      else Become(WithRecompute(x, ReadDocument(derived)))
    case ReadDocument(derived) => Become(WithRecompute(x, WriteDocument(derived, doc)))
    case WriteDocument(derived, stored) =>
      if derived == stored then VANISH.(self := AfterRecompute(x))
      else VANISH.(self := AfterRecompute(x), doc := Some(derived), emit := Some(DocEvent(derived)))
  }

  function LookupJobEffect(stored: Row, x: Proc): Effect
    requires x.Webhook?
  {
    if stored.externalJobId != Some(x.hook.job) || stored.status in {Done, Error} then VANISH
    else Become(x.(hookStage := Deciding(stored)))
  }

  function SettleCallbackEffect(stored: Row, x: Proc): Effect
    requires x.Webhook? && x.hookStage.Deciding?
  {
    var settled := Settled(x.hookStage.row, x.hook);
    Become(x.(hookStage := HookRecomputing(ReadStatuses)))
      .(write := WriteRow(ExternalCall, Flush(x.hookStage.row, settled, stored)),
        emit := Some(StepEvent(ExternalCall, settled.status)))
  }

  function ReapNextEffect(rows: Rows, x: Proc, maxAttempts: nat): Effect
    requires x.Reaper? && x.selected != [] && x.selected[0].step in rows
  {
    var Selected(n, row) := x.selected[0];
    var next := x.(selected := x.selected[1..]);
    if x.phase == Callbacks || row.attempts >= maxAttempts then
      Become(next.(recomputing := Some(ReadStatuses)))
        .(write := WriteRow(n, Flush(row, row.(status := Error), rows[n])), emit := Some(StepEvent(n, Error)))
    else if row.status == Queued then
      Become(next).(spawn := Some(NewMessage(n)))
    else
      Become(next)
  }

  /** The job id that this process would still have to store is lost with it. */
  function LossNote(x: Proc): Note {
    if x.Delivery? && x.stage.Saving? && x.stage.output.JobHandle? then LostCall else Quiet
  }

  /** A worker that dies, or whose handler raises, leaves its message to redelivery. */
  function CrashEffect(x: Proc): Effect {
    if x.Delivery? then Become(x.(returned := x.returned + 1, stage := Waiting)).(note := LossNote(x))
    else VANISH
  }

  /** When cleaning up the session raises, the callback takes the message for an unparseable one and
      acknowledges it, wherever its handler stands. */
  function DropEffect(x: Proc): Effect {
    VANISH.(note := LossNote(x))
  }

  /** The worker loses its connection to the broker while a handler runs: the message goes back to its queue,
      and the handler goes on committing. */
  function RedeliverEffect(x: Proc): Effect
    requires x.Delivery?
  {
    Become(x).(spawn := Some(Delivery(x.step, x.returned + 1, Waiting)))
  }

  ghost function Act(c: Config, s: State, a: Action): Effect
    requires Enabled(c, s, a)
  {
    match a
    case Deliver(p) => DeliverEffect(s.rows, s.procs[p])
    case LoadDocument(p) => LoadDocumentEffect(s.doc, s.procs[p])
    case MarkRunning(p) => MarkRunningEffect(s.rows[s.procs[p].step], s.procs[p])
    case ExecuteOk(p, output) => ExecuteOkEffect(s.procs[p], output)
    case ExecuteFail(p) => Become(s.procs[p].(stage := Failing(s.procs[p].stage.rows, s.procs[p].stage.seen)))
    case Save(p) => SaveEffect(s.rows[s.procs[p].step], s.procs[p])
    case FailAttempt(p) => FailAttemptEffect(s.rows[s.procs[p].step], s.procs[p], c.maxAttempts)
    case ReadReady(p) =>
      Become(s.procs[p].(stage := Claiming(s.procs[p].stage.seen, ReadySuccessors(c.graph, DoneSet(s.rows)))))
    case ClaimNext(p) => ClaimNextEffect(s.rows, s.procs[p])
    case PublishClaimed(p) => PublishClaimedEffect(s.procs[p])
    case EndClaims(p) => Become(s.procs[p].(stage := Recomputing(s.procs[p].stage.seen, ReadStatuses)))
    case RecomputeStep(p) => RecomputeEffect(s.rows, s.doc, s.procs[p])
    case Ack(p) => VANISH
    case Nack(p) => Become(s.procs[p].(returned := s.procs[p].returned + 1, stage := Waiting))
    case DeadLetter(p) => VANISH
    case ReceiveWebhook(hook) => VANISH.(spawn := Some(Webhook(hook, Recorded)), hook := Some(hook))
    case LookupJob(p) => LookupJobEffect(s.rows[ExternalCall], s.procs[p])
    case SettleCallback(p) => SettleCallbackEffect(s.rows[ExternalCall], s.procs[p])
    case ScanInFlight(picked) => VANISH.(spawn := Some(Reaper(InFlight, Selection(s.rows, picked), None)))
    case ReapNext(p) => ReapNextEffect(s.rows, s.procs[p], c.maxAttempts)
    case ScanCallbacks(p, picked) => Become(Reaper(Callbacks, Selection(s.rows, picked), None))
    case EndReap(p) => VANISH
    case PublishEntry(p) =>
      Become(Creator(s.procs[p].entries[1..])).(spawn := Some(NewMessage(s.procs[p].entries[0])))
    case EndCreate(p) => VANISH
    case Crash(p) => CrashEffect(s.procs[p])
    case Drop(p) => DropEffect(s.procs[p])
    case Redeliver(p) => RedeliverEffect(s.procs[p])
  }

  // ---- putting an effect into the state ----

  function Rewrite(rows: Rows, w: RowWrite): Rows {
    match w
    case NoWrite => rows
    case WriteRow(n, row) => rows[n := row]
  }

  function Replace(procs: map<nat, Proc>, p: nat, e: Effect, nextId: nat): map<nat, Proc> {
    var own := if e.self.Some? then procs[p := e.self.value] else procs - {p};
    if e.spawn.Some? then own[nextId := e.spawn.value] else own
  }

  function Remember(h: History, e: Effect): History {
    History(
      h.notes + multiset{e.note},
      if e.issue.Some? then h.issued + {e.issue.value} else h.issued,
      if e.write.WriteRow? && e.write.row.status == Done then h.everDone + {e.write.step} else h.everDone)
  }

  function Apply(s: State, p: nat, e: Effect): State {
    State(
      Rewrite(s.rows, e.write),
      if e.doc.Some? then e.doc.value else s.doc,
      Replace(s.procs, p, e, s.nextId),
      if e.spawn.Some? then s.nextId + 1 else s.nextId,
      if e.hook.Some? then s.hooks + [e.hook.value] else s.hooks,
      if e.emit.Some? then s.events + [e.emit.value] else s.events,
      Remember(s.hist, e))
  }

  ghost predicate Next(c: Config, s: State, a: Action, s': State) {
    Enabled(c, s, a) && s' == Apply(s, Subject(s, a), Act(c, s, a))
  }

  /** `create_document` after its commit: the rows exist, the entry steps are still to be published. */
  function Initial(c: Config): State {
    State(
      map n | n in c.graph.preds :: Row(if n in EntryNodes(c.graph) then Queued else Pending, 0, None, None),
      Processing, map[0 := Creator(EntryNodes(c.graph))], 1, [], [], History(multiset{}, {}, {}))
  }

  // ---- runs ----

  datatype Run = Run(states: seq<State>, actions: seq<Action>)

  ghost predicate IsRun(c: Config, r: Run) {
    && |r.states| == |r.actions| + 1
    && r.states[0] == Initial(c)
    && forall i {:trigger StepAt(c, r, i)} :: 0 <= i < |r.actions| ==> StepAt(c, r, i)
  }

  ghost predicate StepAt(c: Config, r: Run, i: nat)
    requires i < |r.actions| && |r.states| == |r.actions| + 1
  {
    Next(c, r.states[i], r.actions[i], r.states[i+1])
  }

  lemma StepOf(c: Config, r: Run, i: nat)
    requires IsRun(c, r) && i < |r.actions|
    ensures StepAt(c, r, i)
  {}

  ghost predicate Keeps(r: Run, P: State -> bool, k: nat)
    requires k + 1 < |r.states|
  {
    P(r.states[k]) ==> P(r.states[k+1])
  }

  /** Induction over the states of a run, from any one of them on. */
  lemma {:induction false} Induct(r: Run, P: State -> bool, from: nat, i: nat)
    requires from <= i < |r.states| && P(r.states[from])
    requires forall k {:trigger Keeps(r, P, k)} :: from <= k < |r.states| - 1 ==> Keeps(r, P, k)
    ensures P(r.states[i])
  {
    if i > from {
      Induct(r, P, from, i - 1);
      assert Keeps(r, P, i - 1);
    }
  }

  ghost predicate Climbs(P: nat -> bool, k: nat) {
    P(k) ==> P(k + 1)
  }

  /** Induction over positions of a run. */
  lemma {:induction false} InductUp(P: nat -> bool, i: nat)
    requires P(0) && forall k {:trigger Climbs(P, k)} :: 0 <= k < i ==> Climbs(P, k)
    ensures P(i)
  {
    if i > 0 {
      InductUp(P, i - 1);
      assert Climbs(P, i - 1);
    }
  }

  // ---- the no-overlap assumption ----

  /** The steps whose row this process has read and not yet committed. */
  function Writes(x: Proc): set<StepName> {
    match x
    case Delivery(n, _, stage) =>
      if stage.Loaded? || stage.Checked? || stage.Executing? || stage.Saving? || stage.Failing? then {n} else {}
    case Webhook(_, hookStage) => if hookStage.Deciding? then {ExternalCall} else {}
    case Reaper(_, selected, _) => set sel | sel in selected :: sel.step
    case Creator(_) => {}
  }

  /** At most one writer per step is between its check and its commit. The code does not enforce it. */
  ghost predicate NoOverlap(s: State) {
    forall p, q :: p in s.procs && q in s.procs && p != q ==> Writes(s.procs[p]) !! Writes(s.procs[q])
  }

  ghost predicate NoOverlapEver(r: Run) {
    forall i {:trigger NoOverlapIn(r, i)} :: 0 <= i < |r.states| ==> NoOverlapIn(r, i)
  }

  ghost predicate NoOverlapIn(r: Run, i: nat)
    requires i < |r.states|
  {
    NoOverlap(r.states[i])
  }

  lemma NoOverlapAt(r: Run, i: nat)
    requires i < |r.states| && NoOverlapEver(r)
    ensures NoOverlap(r.states[i])
  {
    assert NoOverlapIn(r, i);
  }
}

/** The database and the broker, as one document sees them, and what a section of code may do to them.
    Every commit, read and publish of the program is one section, proved to be one action of the protocol:
    a store's `run` is the protocol run that the calls on it have produced so far. A section asks only where
    its own actor stands, so sections of different actors may be called in any order. */
module Stores {
  import opened Model
  import opened Dag
  import opened Rules
  import opened Protocol
  import opened Claims

  /** The result of Python code that may raise. */
  datatype Attempt<+T> = Raised | Returned(value: T) {
    predicate IsFailure() { Raised? }

    function PropagateFailure<U>(): Attempt<U>
      requires Raised?
    {
      Raised
    }

    function Extract(): T
      requires Returned?
    {
      value
    }
  }

  /** A message the broker keeps: waiting, or delivered and not yet acknowledged. */
  datatype Message = Message(step: StepName, returned: nat)

  // ---- extending a run ----

  ghost function Last(r: Run): State
    requires r.states != []
  {
    r.states[|r.states|-1]
  }

  ghost function Extend(c: Config, r: Run, a: Action): Run
    requires r.states != [] && Enabled(c, Last(r), a)
  {
    Run(r.states + [Apply(Last(r), Subject(Last(r), a), Act(c, Last(r), a))], r.actions + [a])
  }

  ghost predicate OnRun(c: Config, r: Run) {
    ValidConfig(c) && IsRun(c, r)
  }

  lemma ExtendIsRun(c: Config, r: Run, a: Action)
    requires r.states != [] && IsRun(c, r) && Enabled(c, Last(r), a)
    ensures IsRun(c, Extend(c, r, a))
  {
    var r' := Extend(c, r, a);
    forall i {:trigger StepAt(c, r', i)} | 0 <= i < |r'.actions| ensures StepAt(c, r', i) {
      if i < |r.actions| {
        assert StepAt(c, r, i);
      }
    }
  }

  predicate By(p: nat, a: Action) {
    !a.ReceiveWebhook? && !a.ScanInFlight? && !a.Crash? && !a.Drop? && !a.Redeliver? && !a.DeadLetter?
    && a.p == p
  }

  /** `r'` is `r`, continued with actions of `p` alone. */
  ghost predicate Continues(r: Run, r': Run, p: nat) {
    && |r.actions| <= |r'.actions| && r.actions == r'.actions[..|r.actions|]
    && |r.states| <= |r'.states| && r.states == r'.states[..|r.states|]
    && forall i :: |r.actions| <= i < |r'.actions| ==> By(p, r'.actions[i])
  }

  ghost predicate Grows(r: Run, r': Run) {
    r.actions <= r'.actions && r.states <= r'.states
  }

  lemma GrowsBy(r: Run, r': Run, p: nat)
    requires Continues(r, r', p)
    ensures Grows(r, r')
  {}

  lemma GrowsFurther(r: Run, r': Run, r'': Run)
    requires Grows(r, r') && Grows(r', r'')
    ensures Grows(r, r'')
  {}

  lemma ContinuesItself(r: Run, p: nat)
    ensures Continues(r, r, p)
  {}

  lemma ContinuesFurther(r: Run, r': Run, r'': Run, p: nat)
    requires Continues(r, r', p) && Continues(r', r'', p)
    ensures Continues(r, r'', p)
  {
    forall i | |r.actions| <= i < |r''.actions| ensures By(p, r''.actions[i]) {
      if i < |r'.actions| {
        assert r''.actions[i] == r'.actions[i];
      }
    }
  }

  /** Whatever `r` continues with actions of `p` alone, so does `r'`. */
  ghost predicate Prolongs(r: Run, r': Run, p: nat) {
    forall start {:trigger Continues(start, r, p)} :: Continues(start, r, p) ==> Continues(start, r', p)
  }

  lemma ContinuesProlongs(r: Run, r': Run, p: nat)
    requires Continues(r, r', p)
    ensures Prolongs(r, r', p)
  {
    forall start {:trigger Continues(start, r, p)} | Continues(start, r, p) ensures Continues(start, r', p) {
      ContinuesFurther(start, r, r', p);
    }
  }

  ghost predicate IsEffect(c: Config, s: State, a: Action, p: nat, e: Effect) {
    Enabled(c, s, a) && Subject(s, a) == p && Act(c, s, a) == e
  }

  lemma ExtendFacts(c: Config, r: Run, a: Action, p: nat, e: Effect)
    requires r.states != [] && OnRun(c, r) && IsEffect(c, Last(r), a, p, e)
    ensures var r' := Extend(c, r, a);
      && OnRun(c, r') && Grows(r, r') && r'.states != [] && Last(r') == Apply(Last(r), p, e)
      && (By(p, a) ==> Prolongs(r, r', p))
  {
    hide ValidConfig, IsRun, Enabled, Act, Prolongs;
    ExtendIsRun(c, r, a);
    if By(p, a) {
      ContinuesProlongs(r, Extend(c, r, a), p);
    }
  }

  ghost predicate Longer(r: Run, r': Run) {
    |r.states| < |r'.states| && Grows(r, r')
  }

  /** `r`, continued with one action. */
  lemma TakeStep(c: Config, r: Run, a: Action, p: nat, e: Effect) returns (r': Run)
    requires r.states != [] && OnRun(c, r) && IsEffect(c, Last(r), a, p, e)
    ensures r'.states != [] && OnRun(c, r') && Longer(r, r') && Last(r') == Apply(Last(r), p, e)
  {
    hide OnRun, Enabled, Act, Prolongs;
    ExtendFacts(c, r, a, p, e);
    r' := Extend(c, r, a);
  }

  lemma LongerFurther(r: Run, r': Run, r'': Run)
    requires Longer(r, r') && Longer(r', r'')
    ensures Longer(r, r'')
  {}

  // ---- the broker's bag ----

  predicate IsDelivery(procs: map<nat, Proc>, id: nat) {
    id in procs && procs[id].Delivery?
  }

  ghost predicate BagMatches(messages: map<nat, Message>, procs: map<nat, Proc>) {
    && (forall id :: id in messages <==> IsDelivery(procs, id))
    && (forall id :: id in messages ==> messages[id] == Message(procs[id].step, procs[id].returned))
  }

  ghost predicate KeepsBag(messages: map<nat, Message>, messages': map<nat, Message>) {
    forall id :: id in messages ==> id in messages' && messages'[id] == messages[id]
  }

  /** The actor's own message stays what it is. */
  ghost predicate KeepsMessage(procs: map<nat, Proc>, p: nat, self: Option<Proc>) {
    if IsDelivery(procs, p)
    then self.Some? && self.value.Delivery? && self.value.step == procs[p].step
        && self.value.returned == procs[p].returned
    else self.Some? ==> !self.value.Delivery?
  }

  function Publish(messages: map<nat, Message>, nextId: nat, step: StepName): map<nat, Message> {
    messages[nextId := Message(step, 0)]
  }

  /** The bag after `steps` were published one after another. */
  function PublishAll(messages: map<nat, Message>, nextId: nat, steps: seq<StepName>): map<nat, Message>
    decreases |steps|
  {
    if steps == [] then messages else PublishAll(Publish(messages, nextId, steps[0]), nextId + 1, steps[1..])
  }

  /** The bag after `steps` were published, entry by entry: one new message each, the old ones kept. */
  lemma {:induction false} PublishAllAdds(messages: map<nat, Message>, nextId: nat, steps: seq<StepName>, id: nat)
    ensures var bag := PublishAll(messages, nextId, steps);
      if nextId <= id < nextId + |steps| then id in bag && bag[id] == Message(steps[id - nextId], 0)
      else (id in bag <==> id in messages) && (id in messages ==> bag[id] == messages[id])
    decreases |steps|
  {
    if steps != [] {
      PublishAllAdds(Publish(messages, nextId, steps[0]), nextId + 1, steps[1..], id);
    }
  }

  lemma BagStays(messages: map<nat, Message>, s: State, p: nat, e: Effect)
    requires BagMatches(messages, s.procs) && KeepsMessage(s.procs, p, e.self)
    requires e.spawn.None? || (e.spawn.value.Webhook? && s.nextId !in s.procs)
    ensures BagMatches(messages, Apply(s, p, e).procs)
  {}

  lemma BagGrows(messages: map<nat, Message>, s: State, p: nat, e: Effect, step: StepName)
    requires BagMatches(messages, s.procs) && KeepsMessage(s.procs, p, e.self)
    requires e.spawn == Some(NewMessage(step)) && s.nextId !in s.procs
    ensures KeepsBag(messages, Publish(messages, s.nextId, step))
    ensures BagMatches(Publish(messages, s.nextId, step), Apply(s, p, e).procs)
  {}

  // ---- where an actor stands ----

  ghost predicate StandsAt(s: State, p: nat, step: StepName, stage: Stage) {
    IsDelivery(s.procs, p) && s.procs[p].step == step && step in s.rows && s.procs[p].stage == stage
  }

  ghost predicate ActsAs(s: State, p: nat, x: Proc) {
    p in s.procs && s.procs[p] == x
  }

  /** Effect `e` of action `a` takes the handler to `stage`; it keeps its message, and publishes nothing. */
  ghost predicate Leads(c: Config, s: State, a: Action, p: nat, e: Effect, step: StepName, stage: Stage) {
    && IsEffect(c, s, a, p, e) && StandsAt(Apply(s, p, e), p, step, stage)
    && KeepsMessage(s.procs, p, e.self) && e.spawn == None && e.doc == None && e.hook == None
  }

  ghost predicate CommitsRow(e: Effect, step: StepName, row: Row, notify: Option<Event>) {
    e.write == WriteRow(step, row) && e.emit == notify
  }

  ghost predicate CommitsNothing(e: Effect) {
    e.write == NoWrite && e.emit == None
  }

  // ---- the first state ----

  function NewRow(graph: Graph, n: StepName): Row {
    Row(if n in EntryNodes(graph) then Queued else Pending, 0, None, None)
  }

  lemma StartsRun(c: Config)
    requires ValidConfig(c)
    ensures OnRun(c, Run([Initial(c)], []))
  {
    hide ValidConfig, Initial, StepAt;
  }

  lemma GraphIsDict(c: Config)
    requires ValidConfig(c)
    ensures IsDict(c.graph)
  {}

  /** The first state of a run, field by field. */
  lemma InitialIs(c: Config)
    ensures var s := Initial(c);
      && s.rows == (map n | n in c.graph.preds :: NewRow(c.graph, n)) && s.doc == Processing
      && s.hooks == [] && s.events == [] && s.nextId == 1
      && BagMatches(map[], s.procs) && ActsAs(s, 0, Creator(EntryNodes(c.graph)))
  {
    hide EntryNodes;
  }

  // ---- the store ----

  class Store {
    const config: Config
    const org: nat
    var rows: Rows
    var doc: DocumentStatus
    var hooks: seq<Hook>
    var events: seq<Event>
    var messages: map<nat, Message>
    var nextId: nat
    ghost var run: Run

    /** The fields are the last state of a run of the protocol. */
    ghost predicate Valid()
      reads this
    {
      && run.states != [] && OnRun(config, run)
      && Mirrors(Last(run))
    }

    ghost predicate Mirrors(s: State)
      reads this
    {
      && rows == s.rows && doc == s.doc && hooks == s.hooks && events == s.events && nextId == s.nextId
      && BagMatches(messages, s.procs)
    }

    /** The commit of `create_document`: the document and its step rows exist. */
    constructor (graph: Graph, maxAttempts: nat, org: nat, created: Rows)
      requires ValidConfig(Config(graph, maxAttempts))
      requires created == map n | n in graph.preds :: NewRow(graph, n)
      ensures Valid() && config == Config(graph, maxAttempts) && this.org == org
      ensures rows == Initial(config).rows && doc == Processing && messages == map[] && nextId == 1
      ensures Acts(0, Creator(EntryNodes(graph)))
    {
      hide OnRun, ValidConfig, Initial, BagMatches, ActsAs, EntryNodes;
      ghost var c := Config(graph, maxAttempts);
      StartsRun(c);
      InitialIs(c);
      config, this.org := Config(graph, maxAttempts), org;
      rows, doc, hooks, events, messages, nextId := created, Processing, [], [], map[], 1;
      run := Run([Initial(c)], []);
    }

    /** The run takes action `a`, whose effect is `e`. The real fields change beside it. */
    ghost method Take(a: Action, p: nat, e: Effect)
      requires run.states != [] && OnRun(config, run) && IsEffect(config, Last(run), a, p, e)
      modifies this`run
      ensures run.states != [] && OnRun(config, run) && Grows(old(run), run)
      ensures Last(run) == Apply(Last(old(run)), p, e)
      ensures By(p, a) ==> Prolongs(old(run), run, p)
    {
      hide OnRun, Grows, Prolongs, Enabled, Act;
      ExtendFacts(config, run, a, p, e);
      run := Extend(config, run, a);
    }

    /** Ids are handed out once. */
    lemma NextIdIsFree()
      requires Valid()
      ensures nextId !in Last(run).procs
    {
      RunInv(config, run, |run.states| - 1);
    }

    lemma CallExists()
      requires Valid()
      ensures ExternalCall in rows
    {
      RunInv(config, run, |run.states| - 1);
      assert ExternalCall in TerminalNodes(config.graph);
    }

    lemma AttemptsAllowed()
      requires Valid()
      ensures config.maxAttempts >= 1
    {}

    /** The broker keeps a message until it is acknowledged. */
    lemma DeliveryIsKept(p: nat, step: StepName)
      requires Valid() && run.states != [] && IsDelivery(Last(run).procs, p)
      ensures p in messages && messages[p] == Message(Last(run).procs[p].step, Last(run).procs[p].returned)
    {}

    /** The job ids that the partner has handed out so far. */
    ghost function Issued(): set<JobId>
      requires run.states != []
      reads this
    {
      Last(run).hist.issued
    }

    /** The handler of message `p` stands at `stage`. */
    ghost predicate At(p: nat, step: StepName, stage: Stage)
      reads this
    {
      run.states != [] && StandsAt(Last(run), p, step, stage)
    }

    ghost predicate Acts(p: nat, x: Proc)
      reads this
    {
      run.states != [] && ActsAs(Last(run), p, x)
    }

    /** The handler of message `p` is at work. */
    ghost predicate Underway(p: nat, step: StepName)
      reads this
    {
      run.states != [] && exists stage: Stage :: !stage.Waiting? && StandsAt(Last(run), p, step, stage)
    }

    /** Message `p` waits in its queue. */
    ghost predicate AtWaiting(p: nat)
      reads this
    {
      p in messages && At(p, messages[p].step, Waiting)
    }

    /** `session.commit()`: one changed row, and the NOTIFY queued with it. */
    method Commit(step: StepName, row: Row, notify: Option<Event>, ghost a: Action, ghost p: nat, ghost e: Effect)
      requires Valid() && By(p, a) && IsEffect(config, Last(run), a, p, e) && KeepsMessage(Last(run).procs, p, e.self)
      requires CommitsRow(e, step, row, notify) && e.spawn == None && e.doc == None && e.hook == None
      modifies this`run, this`rows, this`events
      ensures Valid() && Prolongs(old(run), run, p) && Last(run) == Apply(Last(old(run)), p, e)
      ensures rows == old(rows)[step := row]
    {
      hide OnRun, IsEffect, Continues, Grows, BagMatches;
      BagStays(messages, Last(run), p, e);
      Take(a, p, e);
      rows := rows[step := row];
      if notify.Some? {
        events := events + [notify.value];
      }
    }

    /** A section that reads and commits nothing. */
    ghost method Observe(a: Action, p: nat, e: Effect)
      requires Valid() && By(p, a) && IsEffect(config, Last(run), a, p, e) && KeepsMessage(Last(run).procs, p, e.self)
      requires CommitsNothing(e) && e.spawn == None && e.doc == None && e.hook == None
      modifies this`run
      ensures Valid() && Prolongs(old(run), run, p) && Last(run) == Apply(Last(old(run)), p, e)
    {
      hide OnRun, IsEffect, Continues, Grows, BagMatches;
      BagStays(messages, Last(run), p, e);
      Take(a, p, e);
    }

    /** `publish_step` */
    method PublishStep(step: StepName, ghost a: Action, ghost p: nat, ghost e: Effect)
      requires Valid() && By(p, a) && IsEffect(config, Last(run), a, p, e) && KeepsMessage(Last(run).procs, p, e.self)
      requires CommitsNothing(e) && e.spawn == Some(NewMessage(step)) && e.doc == None && e.hook == None
      modifies this`run, this`messages, this`nextId
      ensures Valid() && Prolongs(old(run), run, p) && Last(run) == Apply(Last(old(run)), p, e)
      ensures KeepsBag(old(messages), messages)
      ensures messages == Publish(old(messages), old(nextId), step) && nextId == old(nextId) + 1
    {
      hide OnRun, IsEffect, Continues, Grows, BagMatches;
      NextIdIsFree();
      BagGrows(messages, Last(run), p, e, step);
      Take(a, p, e);
      messages := Publish(messages, nextId, step);
      nextId := nextId + 1;
    }
  }
}

/** The worker's callback: what becomes of a delivered message. */
module Workers {
  import opened Model
  import opened Rules
  import opened Protocol
  import opened Stores
  import opened Handlers

  // ---- protocol actions ----

  lemma AckLeads(c: Config, s: State, p: nat, step: StepName, messages: map<nat, Message>)
    requires StandsAt(s, p, step, Acking) && BagMatches(messages, s.procs)
    ensures IsEffect(c, s, Ack(p), p, VANISH) && BagMatches(messages - {p}, Apply(s, p, VANISH).procs)
  {}

  /** Effect `e` puts message `p` back in its queue. */
  ghost predicate Requeues(c: Config, s: State, a: Action, p: nat, step: StepName, e: Effect, messages: map<nat,
                           Message>) {
    && IsEffect(c, s, a, p, e) && StandsAt(Apply(s, p, e), p, step, Waiting)
    && p in messages && BagMatches(messages[p := Message(step, messages[p].returned + 1)], Apply(s, p, e).procs)
    && CommitsNothing(e) && e.spawn == None && e.doc == None && e.hook == None
  }

  lemma NackLeads(c: Config, s: State, p: nat, step: StepName, messages: map<nat, Message>)
    requires StandsAt(s, p, step, Nacking) && BagMatches(messages, s.procs)
    ensures Requeues(c, s, Nack(p), p, step, Become(s.procs[p].(returned := s.procs[p].returned + 1,
        stage := Waiting)), messages)
  {}

  lemma CrashLeads(c: Config, s: State, p: nat, step: StepName, stage: Stage, messages: map<nat, Message>)
    requires StandsAt(s, p, step, stage) && !stage.Waiting? && BagMatches(messages, s.procs)
    ensures Requeues(c, s, Crash(p), p, step, CrashEffect(s.procs[p]), messages)
  {}

  lemma DropLeads(c: Config, s: State, p: nat, step: StepName, stage: Stage, messages: map<nat, Message>)
    requires StandsAt(s, p, step, stage) && !stage.Waiting? && BagMatches(messages, s.procs)
    ensures var e := DropEffect(s.procs[p]);
      IsEffect(c, s, Drop(p), p, e) && BagMatches(messages - {p}, Apply(s, p, e).procs)
  {}

  // ---- the callback ----

  /** `basic_ack` */
  method BasicAck(store: Store, p: nat, step: StepName)
    requires store.Valid() && store.At(p, step, Acking)
    modifies store`run, store`messages
    ensures store.Valid() && Grows(old(store.run), store.run)
    ensures store.messages == old(store.messages) - {p}
  {
    hide OnRun, IsEffect, Grows, BagMatches;
    AckLeads(store.config, Last(store.run), p, step, store.messages);
    store.Take(Ack(p), p, VANISH);
    store.messages := store.messages - {p};
  }

  /** `basic_nack(requeue=True)`: after RETRY, or after an exception, which the run records as a crash. */
  method BasicNack(store: Store, p: nat, step: StepName, ghost raised: bool)
    requires store.Valid() && p in store.messages && (if raised then store.Underway(p, step)
      else store.At(p, step, Nacking))
    modifies store`run, store`messages
    ensures store.Valid() && Grows(old(store.run), store.run)
    ensures store.At(p, step, Waiting)
    ensures store.messages == old(store.messages)[p := Message(step, old(store.messages)[p].returned + 1)]
  {
    hide OnRun, IsEffect, Grows, BagMatches;
    ghost var s := Last(store.run);
    if raised {
      CrashLeads(store.config, s, p, step, s.procs[p].stage, store.messages);
      store.Take(Crash(p), p, CrashEffect(s.procs[p]));
    } else {
      NackLeads(store.config, s, p, step, store.messages);
      store.Take(Nack(p), p, Become(s.procs[p].(returned := s.procs[p].returned + 1, stage := Waiting)));
    }
    store.messages := store.messages[p := Message(step, store.messages[p].returned + 1)];
  }

  /** `basic_ack` of a message whose handler did not end, because cleaning up its session raised. */
  method AckUncleanly(store: Store, p: nat, step: StepName)
    requires store.Valid() && store.Underway(p, step)
    modifies store`run, store`messages
    ensures store.Valid() && Grows(old(store.run), store.run)
    ensures store.messages == old(store.messages) - {p}
  {
    hide OnRun, IsEffect, Grows, BagMatches;
    ghost var s := Last(store.run);
    DropLeads(store.config, s, p, step, s.procs[p].stage, store.messages);
    store.Take(Drop(p), p, DropEffect(s.procs[p]));
    store.messages := store.messages - {p};
  }

  /** The callback, for a message that parses (`Some`) and for one that does not. `handled` is how the handler
      ended, and `unclean` says that rolling back or closing its session raised. A message that parsed leaves
      the broker exactly when its handler says so or the clean-up raised; in the first case its step needs no
      further run or its document has failed. */
  method Callback(store: Store, delivery: Option<nat>, executes: StepInput -> Option<Output>)
    returns (action: HandlerAction, handled: Attempt<HandlerAction>, unclean: bool)
    requires store.Valid()
    requires delivery.Some? ==>
      store.AtWaiting(delivery.value) && CanExecute(store, store.messages[delivery.value].step, executes)
    modifies store`run, store`rows, store`doc, store`events, store`messages, store`nextId
    ensures store.Valid() && Grows(old(store.run), store.run)
    ensures delivery == None ==>
      && action == ACK && store.run == old(store.run)
      && store.messages == old(store.messages) && store.rows == old(store.rows) && store.doc == old(store.doc)
    ensures delivery.Some? ==> action == if unclean || handled == Returned(ACK) then ACK else RETRY
    ensures delivery.Some? && handled == Returned(ACK) ==>
      && var step := old(store.messages)[delivery.value].step;
      && step in store.rows && (TerminalForRun(store.rows[step].status) || store.doc == Failed)
    ensures delivery.Some? && action == ACK ==> delivery.value !in store.messages
    ensures delivery.Some? && action == RETRY ==>
      && var sent := old(store.messages)[delivery.value];
      && delivery.value in store.messages && store.messages[delivery.value] == Message(sent.step, sent.returned + 1)
      && store.At(delivery.value, sent.step, Waiting)
  {
    hide OnRun, IsEffect, BagMatches, HandledAlone;
    action, handled, unclean := RETRY, Raised, false;
    if delivery == None {
      action := ACK;
      return;
    }
    var p := delivery.value;
    var step := store.messages[p].step;
    handled := Handle(store, p, step, executes);
    GrowsBy(old(store.run), store.run, p);
    store.DeliveryIsKept(p, step);
    if handled.Returned? {
      store.AttemptsAllowed();
      VerdictMeans(store.config, old(store.rows), old(store.doc), step, executes);
      action := handled.value;
    }
    if * {
      unclean := true;
      action := ACK;
    }
    ghost var run1 := store.run;
    if unclean {
      AckUncleanly(store, p, step);
    } else if action == ACK {
      BasicAck(store, p, step);
    } else {
      BasicNack(store, p, step, handled.Raised?);
    }
    GrowsFurther(old(store.run), run1, store.run);
  }
}

/** What the theorems about runs say about a store, whatever calls have been made on it. */
module Guarantees {
  import opened Model
  import opened Dag
  import opened Rules
  import opened Protocol
  import opened Claims
  import opened NoOverlaps
  import opened Outcomes
  import opened Stores

  lemma StoreOnRun(store: Store)
    requires store.Valid()
    ensures ValidConfig(store.config) && IsRun(store.config, store.run)
    ensures var s := Last(store.run); store.rows == s.rows && store.doc == s.doc && store.hooks == s.hooks
  {}

  /** A store in which writers never overlapped shows READY only with every step DONE and a completed
      webhook for its job in the log, and FAILED only with a step in ERROR. */
  lemma StatusIsTrue(store: Store)
    requires store.Valid() && NoOverlapEver(store.run)
    ensures store.doc == Ready ==>
      && (forall n :: n in store.config.graph.nodes ==> n in store.rows && store.rows[n].status == Done)
      && ExternalCall in store.rows && store.rows[ExternalCall].externalJobId.Some?
      && Confirmed(store.hooks, store.rows[ExternalCall])
    ensures store.doc == Failed ==> AnyError(store.rows)
  {
    StoreOnRun(store);
    var i := |store.run.states| - 1;
    StatusNeverAhead(store.config, store.run, i);
    if store.doc == Ready {
      ReadyGate(store.config, store.run, i);
    }
  }

  /** Whatever happened, every message in the broker is for a step that has left PENDING, and all of that
      step's predecessors have been DONE. */
  lemma MessagesAreDue(store: Store, p: nat)
    requires store.Valid() && p in store.messages
    ensures var n := store.messages[p].step;
      && n in store.rows && store.rows[n].status != Pending
      && PredsOf(store.config.graph, n) <= Last(store.run).hist.everDone
  {
    StoreOnRun(store);
    RunInv(store.config, store.run, |store.run.states| - 1);
    DueInState(store.config, Last(store.run), p);
  }

  lemma DueInState(c: Config, s: State, p: nat)
    requires Inv(c, s) && IsDelivery(s.procs, p)
    ensures var n := s.procs[p].step;
      n in s.rows && s.rows[n].status != Pending && PredsOf(c.graph, n) <= s.hist.everDone
  {
    assert ProcOk(c.graph, s.rows, s.hist.everDone, s.procs[p]);
    assert RowOk(c.graph, s.rows, s.hist.everDone, s.procs[p].step);
  }
}

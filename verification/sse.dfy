/** The progress stream: subscribe, then snapshot, then deltas. */
module Sse {
  import opened Model
  import opened Dag
  import opened Rules
  import opened Protocol
  import opened Claims
  import opened NoOverlaps
  import opened Status
  import opened Outcomes

  // ---- the client ----

  /** What a client shows: a snapshot event, then changed by the deltas it receives. */
  datatype View = View(doc: DocumentStatus, steps: map<StepName, StepStatus>)

  function ApplyDelta(v: View, e: Event): View {
    match e
    case StepEvent(n, status) => v.(steps := v.steps[n := status])
    case DocEvent(d) => v.(doc := d)
  }

  function ApplyDeltas(v: View, deltas: seq<Event>): View {
    if deltas == [] then v
    else ApplyDelta(ApplyDeltas(v, deltas[..|deltas|-1]), deltas[|deltas|-1])
  }

  function LastStatus(deltas: seq<Event>, n: StepName, before: StepStatus): StepStatus {
    if deltas == [] then before
    else
      var last := deltas[|deltas|-1];
      if last.StepEvent? && last.step == n then last.status else LastStatus(deltas[..|deltas|-1], n, before)
  }

  function LastDoc(deltas: seq<Event>, before: DocumentStatus): DocumentStatus {
    if deltas == [] then before
    else
      var last := deltas[|deltas|-1];
      if last.DocEvent? then last.docStatus else LastDoc(deltas[..|deltas|-1], before)
  }

  lemma {:induction false} ViewIsLast(v: View, deltas: seq<Event>)
    ensures var w := ApplyDeltas(v, deltas);
      && w.doc == LastDoc(deltas, v.doc)
      && forall n :: n in v.steps ==> n in w.steps && w.steps[n] == LastStatus(deltas, n, v.steps[n])
  {
    if deltas != [] {
      ViewIsLast(v, deltas[..|deltas|-1]);
    }
  }

  /** Either the deltas say what the step's status is, whatever was known before, or they say nothing. */
  lemma {:induction false} LastForgets(deltas: seq<Event>, n: StepName, a: StepStatus, b: StepStatus)
    ensures LastStatus(deltas, n, a) == LastStatus(deltas, n, b)
        || (LastStatus(deltas, n, a) == a && LastStatus(deltas, n, b) == b)
  {
    if deltas != [] {
      LastForgets(deltas[..|deltas|-1], n, a, b);
    }
  }

  lemma {:induction false} LastDocForgets(deltas: seq<Event>, a: DocumentStatus, b: DocumentStatus)
    ensures LastDoc(deltas, a) == LastDoc(deltas, b) || (LastDoc(deltas, a) == a && LastDoc(deltas, b) == b)
  {
    if deltas != [] {
      LastDocForgets(deltas[..|deltas|-1], a, b);
    }
  }

  // ---- the server ----

  /** The view is right about a step: it shows the stored status, or RUNNING while a retry is QUEUED,
      which is the one change that is not announced. */
  predicate Shows(view: StepStatus, stored: StepStatus) {
    view == stored || (view == Running && stored == Queued)
  }

  /** A commit announces the status it stores; only RUNNING to QUEUED goes unannounced. */
  ghost predicate Announces(rows: Rows, e: Effect, n: StepName)
    requires n in rows && n in Rewrite(rows, e.write)
  {
    var before, after := rows[n].status, Rewrite(rows, e.write)[n].status;
    if e.emit.Some? && e.emit.value.StepEvent? && e.emit.value.step == n then after == e.emit.value.status
    else after == before || (before == Running && after == Queued)
  }

  ghost predicate AnnouncesDoc(e: Effect) {
    match e.emit
    case Some(DocEvent(d)) => e.doc == Some(d)
    case _ => e.doc == None
  }

  lemma HandlerAnnounces(c: Config, s: State, a: Action, n: StepName)
    requires Known(c, s) && Enabled(c, s, a) && n in s.rows
    requires a.MarkRunning? || a.Save? || a.FailAttempt? || a.ClaimNext?
    ensures n in Rewrite(s.rows, Act(c, s, a).write)
    ensures Announces(s.rows, Act(c, s, a), n) && AnnouncesDoc(Act(c, s, a))
  {
    assert ProcFresh(s.rows, s.procs[a.p]) && ProcOk(c.graph, s.rows, s.hist.everDone, s.procs[a.p]);
  }

  lemma DeciderAnnounces(c: Config, s: State, a: Action, n: StepName)
    requires Known(c, s) && Enabled(c, s, a) && n in s.rows && (a.SettleCallback? || a.ReapNext?)
    ensures n in Rewrite(s.rows, Act(c, s, a).write)
    ensures Announces(s.rows, Act(c, s, a), n) && AnnouncesDoc(Act(c, s, a))
  {
    var x := s.procs[a.p];
    assert ProcFresh(s.rows, x) && ProcOk(c.graph, s.rows, s.hist.everDone, x);
    if a.ReapNext? {
      assert x.selected[0] in x.selected;
    }
  }

  lemma QuietAnnounces(c: Config, s: State, a: Action, n: StepName)
    requires Enabled(c, s, a) && n in s.rows
    requires !a.MarkRunning? && !a.Save? && !a.FailAttempt? && !a.ClaimNext? && !a.SettleCallback? && !a.ReapNext?
    ensures n in Rewrite(s.rows, Act(c, s, a).write)
    ensures Announces(s.rows, Act(c, s, a), n) && AnnouncesDoc(Act(c, s, a))
  {}

  lemma ActionAnnounces(c: Config, s: State, a: Action, n: StepName)
    requires Known(c, s) && Enabled(c, s, a) && n in s.rows
    ensures n in Rewrite(s.rows, Act(c, s, a).write)
    ensures Announces(s.rows, Act(c, s, a), n) && AnnouncesDoc(Act(c, s, a))
  {
    if a.MarkRunning? || a.Save? || a.FailAttempt? || a.ClaimNext? {
      HandlerAnnounces(c, s, a, n);
    } else if a.SettleCallback? || a.ReapNext? {
      DeciderAnnounces(c, s, a, n);
    } else {
      QuietAnnounces(c, s, a, n);
    }
  }

  // ---- one step of the stream ----

  /** The deltas sent to a client that subscribed when `since` had been sent. */
  function Deltas(s: State, since: seq<Event>): seq<Event>
    requires since <= s.events
  {
    s.events[|since|..]
  }

  /** Starting from `before`, the deltas since then lead to what is stored. */
  ghost predicate Tracks(s: State, since: seq<Event>, n: StepName, before: StepStatus) {
    since <= s.events && n in s.rows && Shows(LastStatus(Deltas(s, since), n, before), s.rows[n].status)
  }

  ghost predicate TracksDoc(s: State, since: seq<Event>, before: DocumentStatus) {
    since <= s.events && LastDoc(Deltas(s, since), before) == s.doc
  }

  lemma DeltasGrow(s: State, s': State, e: Option<Event>, since: seq<Event>)
    requires since <= s.events && s'.events == (if e.Some? then s.events + [e.value] else s.events)
    ensures since <= s'.events
    ensures Deltas(s', since) == (if e.Some? then Deltas(s, since) + [e.value] else Deltas(s, since))
  {}

  lemma LastOfAppend(deltas: seq<Event>, e: Event, n: StepName, before: StepStatus, doc: DocumentStatus)
    ensures LastStatus(deltas + [e], n, before)
      == if e.StepEvent? && e.step == n then e.status else LastStatus(deltas, n, before)
    ensures LastDoc(deltas + [e], doc) == if e.DocEvent? then e.docStatus else LastDoc(deltas, doc)
  {
    assert (deltas + [e])[..|deltas|] == deltas;
  }

  lemma NextKeepsTracking(c: Config, s: State, a: Action, s': State, since: seq<Event>, n: StepName, before: StepStatus)
    requires Known(c, s) && Next(c, s, a, s') && Tracks(s, since, n, before)
    ensures Tracks(s', since, n, before)
  {
    var e := Act(c, s, a);
    ActionAnnounces(c, s, a, n);
    DeltasGrow(s, s', e.emit, since);
    if e.emit.Some? {
      LastOfAppend(Deltas(s, since), e.emit.value, n, before, Processing);
    }
  }

  lemma NextKeepsTrackingDoc(c: Config, s: State, a: Action, s': State, since: seq<Event>, before: DocumentStatus)
    requires Known(c, s) && Next(c, s, a, s') && TracksDoc(s, since, before)
    requires s.rows != map[]
    ensures TracksDoc(s', since, before)
  {
    var e := Act(c, s, a);
    var n :| n in s.rows;
    ActionAnnounces(c, s, a, n);
    DeltasGrow(s, s', e.emit, since);
    if e.emit.Some? {
      LastOfAppend(Deltas(s, since), e.emit.value, n, Pending, before);
    }
  }

  // ---- convergence ----

  lemma RunTracks(c: Config, r: Run, t: nat, m: nat, since: seq<Event>, n: StepName, before: StepStatus)
    requires ValidConfig(c) && IsRun(c, r) && NoOverlapEver(r) && t <= m < |r.states|
    requires Tracks(r.states[t], since, n, before)
    ensures Tracks(r.states[m], since, n, before)
  {
    var P := (s: State) => Tracks(s, since, n, before);
    forall k {:trigger Keeps(r, P, k)} | t <= k < |r.states| - 1 ensures Keeps(r, P, k) {
      if P(r.states[k]) {
        RunSettling(c, r, k);
        StepTracks(c, r, k, since, n, before);
      }
    }
    Induct(r, P, t, m);
  }

  lemma StepTracks(c: Config, r: Run, k: nat, since: seq<Event>, n: StepName, before: StepStatus)
    requires IsRun(c, r) && k < |r.actions| && Known(c, r.states[k]) && Tracks(r.states[k], since, n, before)
    ensures Tracks(r.states[k+1], since, n, before)
  {
    StepOf(c, r, k);
    NextKeepsTracking(c, r.states[k], r.actions[k], r.states[k+1], since, n, before);
  }

  lemma RunTracksDoc(c: Config, r: Run, t: nat, m: nat, since: seq<Event>, before: DocumentStatus)
    requires ValidConfig(c) && IsRun(c, r) && NoOverlapEver(r) && t <= m < |r.states|
    requires TracksDoc(r.states[t], since, before)
    ensures TracksDoc(r.states[m], since, before)
  {
    var P := (s: State) => TracksDoc(s, since, before);
    forall k {:trigger Keeps(r, P, k)} | t <= k < |r.states| - 1 ensures Keeps(r, P, k) {
      if P(r.states[k]) {
        RunSettling(c, r, k);
        StepTracksDoc(c, r, k, since, before);
      }
    }
    Induct(r, P, t, m);
  }

  lemma StepTracksDoc(c: Config, r: Run, k: nat, since: seq<Event>, before: DocumentStatus)
    requires ValidConfig(c) && IsRun(c, r) && k < |r.actions| && Known(c, r.states[k])
    requires TracksDoc(r.states[k], since, before)
    ensures TracksDoc(r.states[k+1], since, before)
  {
    StepOf(c, r, k);
    SomeRow(c, r.states[k]);
    NextKeepsTrackingDoc(c, r.states[k], r.actions[k], r.states[k+1], since, before);
  }

  lemma SomeRow(c: Config, s: State)
    requires ValidConfig(c) && Inv(c, s)
    ensures s.rows != map[]
  {
    assert ExternalCall in TerminalNodes(c.graph);
    assert ExternalCall in s.rows;
  }

  lemma TracksStart(s: State, n: StepName)
    requires n in s.rows
    ensures Tracks(s, s.events, n, s.rows[n].status) && TracksDoc(s, s.events, s.doc)
  {
    assert Deltas(s, s.events) == [];
  }

  /** A status read at moment `t` can replace the one read at subscription. */
  lemma LaterReadTracks(s: State, since: seq<Event>, n: StepName, before: StepStatus)
    requires Tracks(s, since, n, before)
    ensures Tracks(s, since, n, s.rows[n].status)
  {
    LastForgets(Deltas(s, since), n, before, s.rows[n].status);
  }

  lemma LaterReadTracksDoc(s: State, since: seq<Event>, before: DocumentStatus)
    requires TracksDoc(s, since, before)
    ensures TracksDoc(s, since, s.doc)
  {
    LastDocForgets(Deltas(s, since), before, s.doc);
  }

  lemma StepConverges(c: Config, r: Run, from: nat, t: nat, m: nat, n: StepName)
    requires ValidConfig(c) && IsRun(c, r) && NoOverlapEver(r) && from <= t <= m < |r.states|
    requires n in r.states[from].rows
    ensures n in r.states[t].rows && Tracks(r.states[m], r.states[from].events, n, r.states[t].rows[n].status)
  {
    var since, before := r.states[from].events, r.states[from].rows[n].status;
    TracksStart(r.states[from], n);
    RunTracks(c, r, from, t, since, n, before);
    LaterReadTracks(r.states[t], since, n, before);
    RunTracks(c, r, t, m, since, n, r.states[t].rows[n].status);
  }

  lemma DocConverges(c: Config, r: Run, from: nat, t: nat, m: nat)
    requires ValidConfig(c) && IsRun(c, r) && NoOverlapEver(r) && from <= t <= m < |r.states|
    ensures TracksDoc(r.states[m], r.states[from].events, r.states[t].doc)
  {
    var since, before := r.states[from].events, r.states[from].doc;
    assert Deltas(r.states[from], since) == [];
    RunTracksDoc(c, r, from, t, since, before);
    LaterReadTracksDoc(r.states[t], since, before);
    RunTracksDoc(c, r, t, m, since, r.states[t].doc);
  }

  /** The snapshot was read after subscribing: the document at moment `docAt`, step `n` at moment `at[n]`. */
  ghost predicate SnapshotTaken(r: Run, from: nat, m: nat, snapshot: View, docAt: nat, at: map<StepName, nat>) {
    && from <= docAt <= m < |r.states| && snapshot.doc == r.states[docAt].doc
    && snapshot.steps.Keys == at.Keys
    && (forall n :: n in at ==>
          && from <= at[n] <= m && n in r.states[from].rows && n in r.states[at[n]].rows
          && snapshot.steps[n] == r.states[at[n]].rows[n].status)
  }

  /** A client that subscribes, then reads a snapshot at any moments, then applies all its deltas, shows the
      stored document status and, for every step, the stored status or RUNNING while a retry is QUEUED. */
  lemma ClientConverges(c: Config, r: Run, from: nat, m: nat, snapshot: View, docAt: nat, at: map<StepName, nat>)
    requires ValidConfig(c) && IsRun(c, r) && NoOverlapEver(r) && SnapshotTaken(r, from, m, snapshot, docAt, at)
    ensures r.states[from].events <= r.states[m].events
    ensures var view := ApplyDeltas(snapshot, Deltas(r.states[m], r.states[from].events));
      && view.doc == r.states[m].doc
      && forall n :: n in at ==>
           n in view.steps && n in r.states[m].rows && Shows(view.steps[n], r.states[m].rows[n].status)
  {
    DocConverges(c, r, from, docAt, m);
    ViewIsLast(snapshot, Deltas(r.states[m], r.states[from].events));
    forall n | n in at
      ensures n in r.states[m].rows
      ensures Shows(LastStatus(Deltas(r.states[m], r.states[from].events), n, snapshot.steps[n]),
                    r.states[m].rows[n].status)
    {
      StepConverges(c, r, from, at[n], m, n);
    }
  }
}

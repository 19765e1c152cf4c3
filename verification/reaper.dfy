/** One scan of the reaper over the step rows of all documents, run alone. */
module Reaping {
  import opened Model
  import opened Rules
  import Protocol

  datatype StepKey = StepKey(document: nat, name: StepName)

  datatype StepRecord = StepRecord(row: Row, updatedAt: int)

  datatype DocumentRecord = DocumentRecord(status: DocumentStatus, updatedAt: int)

  type Steps = map<StepKey, StepRecord>

  type Documents = map<nat, DocumentRecord>

  datatype Settings = Settings(maxAttempts: nat, stepTimeout: int, callbackSla: int)

  // ---- what the rows call for ----

  predicate Stale(steps: Steps, k: StepKey, statuses: set<StepStatus>, cutoff: int) {
    k in steps && steps[k].row.status in statuses && steps[k].updatedAt < cutoff
  }

  function StaleSet(steps: Steps, statuses: set<StepStatus>, cutoff: int): set<StepKey> {
    set k | k in steps && Stale(steps, k, statuses, cutoff)
  }

  predicate StuckInFlight(c: Settings, steps: Steps, now: int, k: StepKey) {
    Stale(steps, k, {Queued, Running}, now - c.stepTimeout)
  }

  predicate Exhausted(c: Settings, steps: Steps, now: int, k: StepKey) {
    StuckInFlight(c, steps, now, k) && steps[k].row.attempts >= c.maxAttempts
  }

  /** A publish of this step may have been lost. */
  predicate Unpublished(c: Settings, steps: Steps, now: int, k: StepKey) {
    StuckInFlight(c, steps, now, k) && steps[k].row.attempts < c.maxAttempts && steps[k].row.status == Queued
  }

  predicate CallbackMissing(c: Settings, steps: Steps, now: int, k: StepKey) {
    Stale(steps, k, {AwaitingCallback}, now - c.callbackSla)
  }

  predicate Expired(c: Settings, steps: Steps, now: int, k: StepKey) {
    Exhausted(c, steps, now, k) || CallbackMissing(c, steps, now, k)
  }

  // ---- what becomes of the tables ----

  /** The steps in `failed` are ERROR. */
  function FailSteps(steps: Steps, failed: set<StepKey>, now: int): Steps {
    map k | k in steps :: if k in failed then StepRecord(steps[k].row.(status := Error), now) else steps[k]
  }

  predicate Touches(failed: set<StepKey>, d: nat) {
    exists k :: k in failed && k.document == d
  }

  /** The documents of the steps in `failed` are FAILED; one that was FAILED before is not written again. */
  function FailDocuments(documents: Documents, failed: set<StepKey>, now: int): Documents {
    map d | d in documents ::
      if Touches(failed, d) && documents[d].status != Failed then DocumentRecord(Failed, now) else documents[d]
  }

  function RowsOf(steps: Steps, d: nat): Rows {
    map k | k in steps && k.document == d :: k.name := steps[k].row
  }

  /** A step in ERROR makes its document's derived status FAILED. */
  lemma ErrorDerivesFailed(steps: Steps, k: StepKey)
    requires k in steps && steps[k].row.status == Error
    ensures DeriveDocumentStatus(RowsOf(steps, k.document)) == Failed
  {
    assert k.name in RowsOf(steps, k.document) && RowsOf(steps, k.document)[k.name] == steps[k].row;
  }

  lemma FailOneMore(steps: Steps, documents: Documents, failed: set<StepKey>, k: StepKey, now: int)
    requires k in steps && k.document in documents
    ensures FailSteps(FailSteps(steps, failed, now), {k}, now) == FailSteps(steps, failed + {k}, now)
    ensures FailDocuments(FailDocuments(documents, failed, now), {k}, now) ==
        FailDocuments(documents, failed + {k}, now)
  {
    forall d ensures Touches(failed + {k}, d) <==> Touches(failed, d) || d == k.document {
      assert k in failed + {k};
    }
    assert k in {k};
  }

  lemma FailNobody(steps: Steps, documents: Documents, now: int)
    ensures FailSteps(steps, {}, now) == steps && FailDocuments(documents, {}, now) == documents
  {}

  /** `order` lists exactly the members of `keys`, each once. */
  ghost predicate Lists(order: seq<StepKey>, keys: set<StepKey>) {
    && |order| == |keys|
    && (forall k :: k in order <==> k in keys)
    && (forall i, j :: 0 <= i < j < |order| ==> order[i] != order[j])
  }

  lemma NothingListed()
    ensures Lists([], {})
  {}

  lemma ListOneMore(order: seq<StepKey>, keys: set<StepKey>, k: StepKey)
    requires Lists(order, keys) && k !in keys
    ensures Lists(order + [k], keys + {k})
  {}

  // ---- what is announced ----

  datatype Notice = Notice(document: nat, event: Event)

  function StepNotice(k: StepKey): Notice {
    Notice(k.document, StepEvent(k.name, Error))
  }

  function DocumentNotice(k: StepKey): Notice {
    Notice(k.document, DocEvent(Failed))
  }

  predicate NotYetFailed(documents: Documents, k: StepKey) {
    k.document in documents && documents[k.document].status != Failed
  }

  /** What failing one step emits: its status, and its document's if that changes. */
  function FailureEvents(documents: Documents, k: StepKey): seq<Notice> {
    [StepNotice(k)] + (if NotYetFailed(documents, k) then [DocumentNotice(k)] else [])
  }

  /** What failing all these steps announces: every one of them, and every document that was not FAILED. */
  function Notices(documents: Documents, failed: set<StepKey>): set<Notice> {
    (set k | k in failed :: StepNotice(k)) + (set k | k in failed && NotYetFailed(documents, k) :: DocumentNotice(k))
  }

  lemma StepIsNew(documents: Documents, failed: set<StepKey>, k: StepKey)
    requires k !in failed
    ensures StepNotice(k) !in Notices(documents, failed)
  {}

  lemma DocumentIsNew(documents: Documents, failed: set<StepKey>, k: StepKey)
    requires !Touches(failed, k.document)
    ensures DocumentNotice(k) !in Notices(documents, failed)
  {}

  lemma NewlyAnnounced(documents: Documents, failed: set<StepKey>, k: StepKey)
    requires NotYetFailed(documents, k)
    ensures Notices(documents, failed + {k}) == Notices(documents, failed) + {StepNotice(k)} + {DocumentNotice(k)}
  {}

  lemma AlreadyAnnounced(documents: Documents, failed: set<StepKey>, k: StepKey)
    requires !NotYetFailed(documents, k) || Touches(failed, k.document)
    ensures Notices(documents, failed + {k}) == Notices(documents, failed) + {StepNotice(k)}
  {
    if NotYetFailed(documents, k) {
      var j :| j in failed && j.document == k.document;
      assert DocumentNotice(j) == DocumentNotice(k);
    }
  }

  lemma StillToFail(documents: Documents, failed: set<StepKey>, k: StepKey, now: int)
    requires k.document in documents
    ensures NotYetFailed(FailDocuments(documents, failed, now), k) <==>
      NotYetFailed(documents, k) && !Touches(failed, k.document)
  {}

  lemma NoticesOfOneMore(documents: Documents, failed: set<StepKey>, k: StepKey, now: int, order: seq<Notice>)
    requires k.document in documents && k !in failed && multiset(order) == multiset(Notices(documents, failed))
    ensures multiset(order + FailureEvents(FailDocuments(documents, failed, now), k)) ==
      multiset(Notices(documents, failed + {k}))
  {
    hide Notices, Touches, NotYetFailed, FailDocuments;
    var sofar := Notices(documents, failed);
    StepIsNew(documents, failed, k);
    StillToFail(documents, failed, k, now);
    if NotYetFailed(FailDocuments(documents, failed, now), k) {
      DocumentIsNew(documents, failed, k);
      NewlyAnnounced(documents, failed, k);
      assert order + [StepNotice(k)] + [DocumentNotice(k)] ==
          order + FailureEvents(FailDocuments(documents, failed, now), k);
    } else {
      AlreadyAnnounced(documents, failed, k);
      assert order + [StepNotice(k)] == order + FailureEvents(FailDocuments(documents, failed, now), k);
    }
  }

  // ---- how far a scan got ----

  datatype Snapshot = Snapshot(steps: Steps, documents: Documents, published: seq<StepKey>, events: seq<Notice>)

  ghost predicate References(t: Snapshot) {
    forall k :: k in t.steps ==> k.document in t.documents
  }

  /** From `t0` to `t` the steps in `failed` were failed, those in `lost` were published, nothing else
      happened, and `acted` counts both. */
  ghost predicate Reaped(t0: Snapshot, t: Snapshot, failed: set<StepKey>, lost: set<StepKey>, now: int, acted: nat) {
    && t.steps == FailSteps(t0.steps, failed, now)
    && t.documents == FailDocuments(t0.documents, failed, now)
    && t0.published <= t.published && Lists(t.published[|t0.published|..], lost)
    && t0.events <= t.events && multiset(t.events[|t0.events|..]) == multiset(Notices(t0.documents, failed))
    && acted == |failed| + |lost|
  }

  function Failing(t: Snapshot, k: StepKey, now: int): Snapshot {
    t.(steps := FailSteps(t.steps, {k}, now), documents := FailDocuments(t.documents, {k}, now),
       events := t.events + FailureEvents(t.documents, k))
  }

  lemma FailOne(t: Snapshot, k: StepKey, now: int)
    requires References(t) && k in t.steps
    ensures k.document in t.documents
    ensures var steps := t.steps[k := StepRecord(t.steps[k].row.(status := Error), now)];
      && DeriveDocumentStatus(RowsOf(steps, k.document)) == Failed
      && Failing(t, k, now) ==
           if t.documents[k.document].status != Failed
           then Snapshot(steps, t.documents[k.document := DocumentRecord(Failed, now)], t.published,
                         t.events + [StepNotice(k)] + [DocumentNotice(k)])
           else Snapshot(steps, t.documents, t.published, t.events + [StepNotice(k)])
  {
    hide DeriveDocumentStatus, RowsOf;
    var steps := t.steps[k := StepRecord(t.steps[k].row.(status := Error), now)];
    ErrorDerivesFailed(steps, k);
    assert k in {k};
    assert FailSteps(t.steps, {k}, now) == steps;
    assert t.events + FailureEvents(t.documents, k) ==
      if NotYetFailed(t.documents, k) then t.events + [StepNotice(k)] + [DocumentNotice(k)]
        else t.events + [StepNotice(k)];
  }

  lemma NothingReaped(t: Snapshot, now: int)
    ensures Reaped(t, t, {}, {}, now, 0)
  {
    FailNobody(t.steps, t.documents, now);
    assert Notices(t.documents, {}) == {};
  }

  lemma ReapedFailure(t0: Snapshot, t: Snapshot, failed: set<StepKey>, lost: set<StepKey>, now: int, acted: nat,
                      k: StepKey)
    requires Reaped(t0, t, failed, lost, now, acted) && References(t0) && k in t0.steps && k !in failed
    ensures Reaped(t0, Failing(t, k, now), failed + {k}, lost, now, acted + 1)
  {
    hide Lists, Notices, FailSteps, FailDocuments, FailureEvents;
    FailOneMore(t0.steps, t0.documents, failed, k, now);
    var before := t.events[|t0.events|..];
    NoticesOfOneMore(t0.documents, failed, k, now, before);
    assert (t.events + FailureEvents(t.documents, k))[|t0.events|..] == before + FailureEvents(t.documents, k);
  }

  lemma ReapedPublish(t0: Snapshot, t: Snapshot, failed: set<StepKey>, lost: set<StepKey>, now: int, acted: nat,
                      k: StepKey)
    requires Reaped(t0, t, failed, lost, now, acted) && k !in lost
    ensures Reaped(t0, t.(published := t.published + [k]), failed, lost + {k}, now, acted + 1)
  {
    hide Lists, Notices, FailSteps, FailDocuments;
    var before := t.published[|t0.published|..];
    ListOneMore(before, lost, k);
    assert (t.published + [k])[|t0.published|..] == before + [k];
  }

  /** The members of a list, up to a point. */
  function Upto(order: seq<StepKey>, i: nat): set<StepKey>
    requires i <= |order|
  {
    set k | k in order[..i]
  }

  lemma UptoNext(order: seq<StepKey>, keys: set<StepKey>, i: nat)
    requires Lists(order, keys) && i < |order|
    ensures Upto(order, i + 1) == Upto(order, i) + {order[i]}
    ensures order[i] !in Upto(order, i) && order[i] in keys
  {
    assert order[..i+1] == order[..i] + [order[i]];
  }

  lemma NothingUpto(order: seq<StepKey>, keys: set<StepKey>)
    ensures keys + Upto(order, 0) == keys
  {}

  lemma SameSteps(t0: Snapshot, t: Snapshot, failed: set<StepKey>, lost: set<StepKey>, now: int, acted: nat)
    requires Reaped(t0, t, failed, lost, now, acted)
    ensures t.steps.Keys == t0.steps.Keys
  {}

  lemma UptoAll(order: seq<StepKey>, keys: set<StepKey>)
    requires Lists(order, keys)
    ensures Upto(order, |order|) == keys
  {
    assert order[..|order|] == order;
  }

  ghost function ExhaustedAmong(c: Settings, steps: Steps, now: int, seen: set<StepKey>): set<StepKey> {
    set k | k in seen && Exhausted(c, steps, now, k)
  }

  ghost function UnpublishedAmong(c: Settings, steps: Steps, now: int, seen: set<StepKey>): set<StepKey> {
    set k | k in seen && Unpublished(c, steps, now, k)
  }

  /** One round of the first loop, on values. */
  function Reap(c: Settings, t: Snapshot, now: int, k: StepKey): (Snapshot, nat)
    requires k in t.steps
  {
    if t.steps[k].row.attempts >= c.maxAttempts then (Failing(t, k, now), 1)
    else if t.steps[k].row.status == Queued then (t.(published := t.published + [k]), 1)
    else (t, 0)
  }

  lemma ReapIsRight(c: Settings, t0: Snapshot, t: Snapshot, now: int, seen: set<StepKey>, acted: nat, k: StepKey)
    requires References(t0) && StuckInFlight(c, t0.steps, now, k) && k !in seen
    requires Reaped(t0, t, ExhaustedAmong(c, t0.steps, now, seen), UnpublishedAmong(c, t0.steps, now, seen), now, acted)
    ensures k in t.steps
    ensures var (t', n) := Reap(c, t, now, k);
      Reaped(t0, t', ExhaustedAmong(c, t0.steps, now, seen + {k}), UnpublishedAmong(c, t0.steps, now, seen + {k}),
             now, acted + n)
  {
    hide Reaped, References, ExhaustedAmong, UnpublishedAmong, Failing;
    NotYetReaped(c, t0, t, now, seen, acted, k);
    AmongNext(c, t0.steps, now, seen, k);
    var failed, lost := ExhaustedAmong(c, t0.steps, now, seen), UnpublishedAmong(c, t0.steps, now, seen);
    if Exhausted(c, t0.steps, now, k) {
      ReapedFailure(t0, t, failed, lost, now, acted, k);
    } else if Unpublished(c, t0.steps, now, k) {
      ReapedPublish(t0, t, failed, lost, now, acted, k);
    }
  }

  lemma NotYetReaped(c: Settings, t0: Snapshot, t: Snapshot, now: int, seen: set<StepKey>, acted: nat, k: StepKey)
    requires k in t0.steps && k !in seen
    requires Reaped(t0, t, ExhaustedAmong(c, t0.steps, now, seen), UnpublishedAmong(c, t0.steps, now, seen), now, acted)
    ensures k in t.steps && t.steps[k] == t0.steps[k]
    ensures k !in ExhaustedAmong(c, t0.steps, now, seen) && k !in UnpublishedAmong(c, t0.steps, now, seen)
  {}

  lemma AmongNext(c: Settings, steps: Steps, now: int, seen: set<StepKey>, k: StepKey)
    ensures var failed := ExhaustedAmong(c, steps, now, seen);
      ExhaustedAmong(c, steps, now, seen + {k}) == if Exhausted(c, steps, now, k) then failed + {k} else failed
    ensures var lost := UnpublishedAmong(c, steps, now, seen);
      UnpublishedAmong(c, steps, now, seen + {k}) == if Unpublished(c, steps, now, k) then lost + {k} else lost
  {}

  lemma NextRow(c: Settings, t0: Snapshot, t: Snapshot, now: int, order: seq<StepKey>, i: nat, acted: nat)
    requires References(t0) && Lists(order, StaleSet(t0.steps, {Queued, Running}, now - c.stepTimeout)) && i < |order|
    requires Reaped(t0, t, ExhaustedAmong(c, t0.steps, now, Upto(order, i)),
                    UnpublishedAmong(c, t0.steps, now, Upto(order, i)), now, acted)
    ensures order[i] in t.steps
    ensures var (t', n) := Reap(c, t, now, order[i]);
      Reaped(t0, t', ExhaustedAmong(c, t0.steps, now, Upto(order, i + 1)),
             UnpublishedAmong(c, t0.steps, now, Upto(order, i + 1)), now, acted + n)
  {
    hide Reaped, Lists, Upto, Reap, ExhaustedAmong, UnpublishedAmong;
    UptoNext(order, StaleSet(t0.steps, {Queued, Running}, now - c.stepTimeout), i);
    ReapIsRight(c, t0, t, now, Upto(order, i), acted, order[i]);
  }

  lemma NobodyAmong(c: Settings, steps: Steps, now: int, order: seq<StepKey>)
    ensures ExhaustedAmong(c, steps, now, Upto(order, 0)) == {} && UnpublishedAmong(c, steps, now, Upto(order, 0)) == {}
  {}

  lemma EveryoneAmong(c: Settings, steps: Steps, now: int)
    ensures var stuck := StaleSet(steps, {Queued, Running}, now - c.stepTimeout);
      && (forall k :: k in ExhaustedAmong(c, steps, now, stuck) <==> Exhausted(c, steps, now, k))
      && (forall k :: k in UnpublishedAmong(c, steps, now, stuck) <==> Unpublished(c, steps, now, k))
  {}

  /** The second loop only meets rows that the first left alone. */
  lemma CallbacksWereUntouched(c: Settings, t0: Snapshot, t: Snapshot, failed: set<StepKey>, lost: set<StepKey>,
                               now: int, acted: nat)
    requires Reaped(t0, t, failed, lost, now, acted)
    requires forall j :: j in failed ==> Exhausted(c, t0.steps, now, j)
    ensures var missing := StaleSet(t.steps, {AwaitingCallback}, now - c.callbackSla);
      (forall k :: k in missing <==> CallbackMissing(c, t0.steps, now, k)) && missing !! failed
          && missing <= t.steps.Keys
  {}

  lemma NextFailure(t0: Snapshot, t: Snapshot, failed: set<StepKey>, missing: set<StepKey>, order: seq<StepKey>, i: nat,
                    lost: set<StepKey>, now: int, acted: nat)
    requires Lists(order, missing) && missing !! failed && missing <= t0.steps.Keys && i < |order| && References(t0)
    requires Reaped(t0, t, failed + Upto(order, i), lost, now, acted)
    ensures order[i] in t.steps
    ensures Reaped(t0, Failing(t, order[i], now), failed + Upto(order, i + 1), lost, now, acted + 1)
  {
    hide Reaped, Lists, Upto, References, Failing;
    UptoNext(order, missing, i);
    SameSteps(t0, t, failed + Upto(order, i), lost, now, acted);
    ReapedFailure(t0, t, failed + Upto(order, i), lost, now, acted, order[i]);
    assert failed + (Upto(order, i) + {order[i]}) == failed + Upto(order, i) + {order[i]};
  }

  lemma StaleMeans(order: seq<StepKey>, steps: Steps, statuses: set<StepStatus>, cutoff: int)
    requires Lists(order, StaleSet(steps, statuses, cutoff))
    ensures forall k :: k in order <==> k in steps && steps[k].row.status in statuses && steps[k].updatedAt < cutoff
  {}

  // ---- the scan ----

  class Tables {
    const settings: Settings
    var steps: Steps
    var documents: Documents
    var published: seq<StepKey>
    var events: seq<Notice>

    constructor (settings: Settings, steps: Steps, documents: Documents)
      requires forall k :: k in steps ==> k.document in documents
      ensures Valid() && this.settings == settings
      ensures this.steps == steps && this.documents == documents && published == [] && events == []
    {
      this.settings, this.steps, this.documents, published, events := settings, steps, documents, [], [];
    }

    /** The foreign key of the step table. */
    ghost predicate Valid()
      reads this
    {
      forall k :: k in steps ==> k.document in documents
    }

    ghost function Now(): Snapshot
      reads this
    {
      Snapshot(steps, documents, published, events)
    }

    /** `lock_stale_steps`, in whatever order the rows come. */
    method LockStaleSteps(statuses: set<StepStatus>, cutoff: int) returns (order: seq<StepKey>)
      ensures Lists(order, StaleSet(steps, statuses, cutoff))
      ensures forall k :: k in order <==> k in steps && steps[k].row.status in statuses && steps[k].updatedAt < cutoff
    {
      hide Lists, Stale;
      order := [];
      var todo := StaleSet(steps, statuses, cutoff);
      NothingListed();
      ghost var all := todo;
      assert all - todo == {};
      while todo != {}
        invariant todo <= all && Lists(order, all - todo)
        decreases |todo|
      {
        var k :| k in todo;
        ListOneMore(order, all - todo, k);
        assert all - (todo - {k}) == all - todo + {k};
        todo := todo - {k};
        order := order + [k];
      }
      assert all - {} == all;
      StaleMeans(order, steps, statuses, cutoff);
    }

    /** `_fail`, with the recomputation it ends in. */
    method Fail(k: StepKey, now: int)
      requires Valid() && k in steps
      modifies this`steps, this`documents, this`events
      ensures Valid()
      ensures Now() == Failing(old(Now()), k, now)
    {
      hide DeriveDocumentStatus, RowsOf, Failing;
      FailOne(Now(), k, now);
      steps := steps[k := StepRecord(steps[k].row.(status := Error), now)];
      events := events + [StepNotice(k)];
      var status := DeriveDocumentStatus(RowsOf(steps, k.document));
      if documents[k.document].status != status {
        documents := documents[k.document := DocumentRecord(status, now)];
        events := events + [Notice(k.document, DocEvent(status))];
      }
    }

    /** One stale row of the first loop. A RUNNING row with attempts left is left to the broker. */
    method ReapRow(k: StepKey, now: int) returns (acted: nat)
      requires Valid() && k in steps
      modifies this`steps, this`documents, this`events, this`published
      ensures Valid() && (Now(), acted) == Reap(settings, old(Now()), now, k)
    {
      acted := 0;
      if steps[k].row.attempts >= settings.maxAttempts {
        Fail(k, now);
        acted := 1;
      } else if steps[k].row.status == Queued {
        published := published + [k];
        acted := 1;
      }
    }

    method ReapInFlight(now: int) returns (acted: nat, ghost failed: set<StepKey>, ghost lost: set<StepKey>)
      requires Valid()
      modifies this`steps, this`documents, this`events, this`published
      ensures Valid() && Reaped(old(Now()), Now(), failed, lost, now, acted)
      ensures forall k :: k in failed <==> Exhausted(settings, old(steps), now, k)
      ensures forall k :: k in lost <==> Unpublished(settings, old(steps), now, k)
    {
      hide Reaped, Lists, Upto, StaleSet, Reap, ExhaustedAmong, UnpublishedAmong;
      ghost var t0 := Now();
      var stale := LockStaleSteps({Queued, Running}, now - settings.stepTimeout);
      ghost var stuck := StaleSet(steps, {Queued, Running}, now - settings.stepTimeout);
      acted := 0;
      NothingReaped(t0, now);
      NobodyAmong(settings, t0.steps, now, stale);
      for i := 0 to |stale|
        invariant Valid()
        invariant Reaped(t0, Now(), ExhaustedAmong(settings, t0.steps, now, Upto(stale, i)),
                         UnpublishedAmong(settings, t0.steps, now, Upto(stale, i)), now, acted)
      {
        NextRow(settings, t0, Now(), now, stale, i, acted);
        var more := ReapRow(stale[i], now);
        acted := acted + more;
      }
      UptoAll(stale, stuck);
      EveryoneAmong(settings, t0.steps, now);
      failed := ExhaustedAmong(settings, t0.steps, now, stuck);
      lost := UnpublishedAmong(settings, t0.steps, now, stuck);
    }

    /** The second loop. */
    method TimeOutCallbacks(now: int, ghost t0: Snapshot, ghost failed0: set<StepKey>, ghost lost: set<StepKey>,
                            acted0: nat)
      returns (acted: nat, ghost failed: set<StepKey>)
      requires Valid() && References(t0) && Reaped(t0, Now(), failed0, lost, now, acted0)
      requires forall k :: k in failed0 ==> Exhausted(settings, t0.steps, now, k)
      modifies this`steps, this`documents, this`events
      ensures Valid() && Reaped(t0, Now(), failed, lost, now, acted)
      ensures forall k :: k in failed <==> k in failed0 || CallbackMissing(settings, t0.steps, now, k)
    {
      hide Reaped, Lists, Upto, Failing, StaleSet, Exhausted, References;
      CallbacksWereUntouched(settings, t0, Now(), failed0, lost, now, acted0);
      SameSteps(t0, Now(), failed0, lost, now, acted0);
      var stuck := LockStaleSteps({AwaitingCallback}, now - settings.callbackSla);
      ghost var missing := StaleSet(steps, {AwaitingCallback}, now - settings.callbackSla);
      acted := acted0;
      NothingUpto(stuck, failed0);
      for i := 0 to |stuck|
        invariant Valid()
        invariant Reaped(t0, Now(), failed0 + Upto(stuck, i), lost, now, acted)
      {
        NextFailure(t0, Now(), failed0, missing, stuck, i, lost, now, acted);
        Fail(stuck[i], now);
        acted := acted + 1;
      }
      UptoAll(stuck, missing);
      failed := failed0 + missing;
    }

    /** `run_once`, run alone: exactly the stale exhausted rows and the stale AWAITING_CALLBACK rows become
        ERROR, with their documents FAILED; exactly the stale QUEUED rows with attempts left are published,
        each once; every other row and document keeps its value, and the result counts both kinds. */
    method RunOnce(now: int) returns (acted: nat, ghost failed: set<StepKey>, ghost lost: set<StepKey>)
      requires Valid()
      modifies this`steps, this`documents, this`events, this`published
      ensures Valid() && Reaped(old(Now()), Now(), failed, lost, now, acted)
      ensures forall k :: k in failed <==> Expired(settings, old(steps), now, k)
      ensures forall k :: k in lost <==> Unpublished(settings, old(steps), now, k)
    {
      ghost var t0 := Now();
      ghost var failed0;
      acted, failed0, lost := ReapInFlight(now);
      acted, failed := TimeOutCallbacks(now, t0, failed0, lost, acted);
    }
  }

  /** What a failed row looks like afterwards. */
  function FailedAt(row: Row, now: int): StepRecord {
    StepRecord(Row(Error, row.attempts, row.result, row.externalJobId), now)
  }

  /** How often the scan published the step. */
  function PublishedBy(t0: Snapshot, t: Snapshot, k: StepKey): int {
    multiset(t.published)[k] as int - multiset(t0.published)[k] as int
  }

  /** What a scan that failed `failed` and published `lost` did to the row of `k`. */
  lemma RowFate(c: Settings, t0: Snapshot, t: Snapshot, failed: set<StepKey>, lost: set<StepKey>, now: int, acted: nat,
                k: StepKey)
    requires Reaped(t0, t, failed, lost, now, acted) && References(t0) && k in t0.steps
    ensures k in t.steps && k.document in t.documents
    ensures t.steps[k] == if k in failed then FailedAt(t0.steps[k].row, now) else t0.steps[k]
    ensures k in failed ==> t.documents[k.document].status == Failed
    ensures PublishedBy(t0, t, k) == if k in lost then 1 else 0
  {
    hide Notices, NotYetFailed;
    var more := t.published[|t0.published|..];
    assert t.published == t0.published + more;
    ListCounts(more, lost, k);
  }

  /** What a scan means for a row that waits for its callback, in its age and the settings alone. */
  lemma ScanOfWaiting(c: Settings, t0: Snapshot, t: Snapshot, failed: set<StepKey>, lost: set<StepKey>, now: int,
                      acted: nat, k: StepKey)
    requires Reaped(t0, t, failed, lost, now, acted) && References(t0) && k in t0.steps
    requires forall j :: j in failed <==> Expired(c, t0.steps, now, j)
    requires forall j :: j in lost <==> Unpublished(c, t0.steps, now, j)
    requires t0.steps[k].row.status == AwaitingCallback
    ensures k in t.steps && k.document in t.documents && PublishedBy(t0, t, k) == 0
    ensures t0.steps[k].updatedAt < now - c.callbackSla ==>
      t.steps[k] == FailedAt(t0.steps[k].row, now) && t.documents[k.document].status == Failed
    ensures t0.steps[k].updatedAt >= now - c.callbackSla ==> t.steps[k] == t0.steps[k]
  {
    RowFate(c, t0, t, failed, lost, now, acted, k);
  }

  /** And for every other row: one in flight that was touched within the timeout is left alone; an older one
      fails if its attempts are used up; otherwise it is published once if it is QUEUED, and left to a
      redelivery if it is RUNNING. Rows that are neither in flight nor waiting are left alone. */
  lemma ScanMeans(c: Settings, t0: Snapshot, t: Snapshot, failed: set<StepKey>, lost: set<StepKey>, now: int,
                  acted: nat, k: StepKey)
    requires Reaped(t0, t, failed, lost, now, acted) && References(t0) && k in t0.steps
    requires forall j :: j in failed <==> Expired(c, t0.steps, now, j)
    requires forall j :: j in lost <==> Unpublished(c, t0.steps, now, j)
    requires t0.steps[k].row.status != AwaitingCallback
    ensures k in t.steps && k.document in t.documents
    ensures t0.steps[k].row.status !in {Queued, Running} || t0.steps[k].updatedAt >= now - c.stepTimeout ==>
      t.steps[k] == t0.steps[k] && PublishedBy(t0, t, k) == 0
    ensures t0.steps[k].row.status in {Queued, Running} && t0.steps[k].updatedAt < now - c.stepTimeout ==>
      if t0.steps[k].row.attempts >= c.maxAttempts
      then t.steps[k] == FailedAt(t0.steps[k].row, now) && t.documents[k.document].status == Failed
          && PublishedBy(t0, t, k) == 0
      else t.steps[k] == t0.steps[k] && PublishedBy(t0, t, k) == if t0.steps[k].row.status == Queued then 1 else 0
  {
    RowFate(c, t0, t, failed, lost, now, acted, k);
  }

  /** A document is written exactly when one of its steps failed and it was not FAILED before. */
  lemma ScanOfDocument(c: Settings, t0: Snapshot, t: Snapshot, failed: set<StepKey>, lost: set<StepKey>, now: int,
                       acted: nat, d: nat)
    requires Reaped(t0, t, failed, lost, now, acted) && d in t0.documents
    ensures d in t.documents
    ensures t.documents[d] ==
      if (exists k :: k in failed && k.document == d) && t0.documents[d].status != Failed
      then DocumentRecord(Failed, now) else t0.documents[d]
  {}

  /** What is due stays due until somebody touches the row: a later scan of the same rows fails or publishes
      whatever an earlier one would have. */
  lemma DueStays(c: Settings, steps: Steps, k: StepKey, now: int, later: int)
    requires now <= later
    ensures Expired(c, steps, now, k) ==> Expired(c, steps, later, k)
    ensures Unpublished(c, steps, now, k) ==> Unpublished(c, steps, later, k)
  {}

  /** What a scan emits: one ERROR for each step it failed, and one FAILED for each document that this changed. */
  lemma ScanAnnounces(t0: Snapshot, t: Snapshot, failed: set<StepKey>, lost: set<StepKey>, now: int, acted: nat,
                      d: nat, event: Event)
    requires Reaped(t0, t, failed, lost, now, acted)
    ensures t0.events <= t.events
    ensures multiset(t.events[|t0.events|..])[Notice(d, event)] ==
      match event
      case StepEvent(name, status) => if status == Error && StepKey(d, name) in failed then 1 else 0
      case DocEvent(status) =>
        if status == Failed && (exists k :: k in failed && k.document == d)
           && d in t0.documents && t0.documents[d].status != Failed
        then 1 else 0
  {
    var n := Notice(d, event);
    assert n in Notices(t0.documents, failed) <==> multiset(t.events[|t0.events|..])[n] == 1;
    match event
    case StepEvent(name, _) =>
      var k := StepKey(d, name);
      assert k in failed ==> StepNotice(k) in Notices(t0.documents, failed);
    case DocEvent(_) =>
      if k :| k in failed && k.document == d {
        assert NotYetFailed(t0.documents, k) ==> DocumentNotice(k) in Notices(t0.documents, failed);
      }
  }

  lemma {:induction false} ListCounts(order: seq<StepKey>, keys: set<StepKey>, k: StepKey)
    requires Lists(order, keys)
    ensures multiset(order)[k] == if k in keys then 1 else 0
  {
    if order != [] {
      var first, rest := order[0], order[1..];
      assert order == [first] + rest;
      ListTail(order, keys);
      ListCounts(rest, keys - {first}, k);
    }
  }

  lemma ListTail(order: seq<StepKey>, keys: set<StepKey>)
    requires Lists(order, keys) && order != []
    ensures Lists(order[1..], keys - {order[0]})
  {
    forall k | k in keys && k != order[0] ensures k in order[1..] {
      assert k in order;
    }
  }

  // ---- the scan and the protocol ----

  /** With nobody interfering, a round of the scan does to a document's rows what the protocol's reaper
      does, announces the step as it does, and publishes exactly when it does. */
  lemma ReapRefinesTheProtocol(c: Settings, t: Snapshot, now: int, k: StepKey)
    requires k in t.steps && t.steps[k].row.status in {Queued, Running}
    ensures k.name in RowsOf(t.steps, k.document)
    ensures var rows := RowsOf(t.steps, k.document);
      var reaper := Protocol.Reaper(Protocol.InFlight, [Protocol.Selected(k.name, t.steps[k].row)], None);
      var e := Protocol.ReapNextEffect(rows, reaper, c.maxAttempts);
      var t' := Reap(c, t, now, k).0;
      && RowsOf(t'.steps, k.document) == Protocol.Rewrite(rows, e.write)
      && (e.emit.Some? ==>
            |t.events| < |t'.events| && t'.events[..|t.events| + 1] == t.events + [Notice(k.document, e.emit.value)])
      && (e.emit.None? ==> t'.events == t.events)
      && t'.published == t.published + (if e.spawn.Some? then [k] else [])
  {
    var rows := RowsOf(t.steps, k.document);
    assert rows[k.name] == t.steps[k].row;
    assert k in {k};
  }
}

/** Creating a document and showing one. */
module Documents {
  import opened Model
  import opened Dag
  import opened Rules
  import opened Protocol
  import opened Claims
  import opened Outcomes
  import opened Provenance
  import opened Stores

  // ---- creation ----

  lemma EntryLeads(c: Config, s: State, entries: seq<StepName>)
    requires ActsAs(s, 0, Creator(entries)) && s.nextId !in s.procs
    ensures entries != [] ==>
      var e := Become(Creator(entries[1..])).(spawn := Some(NewMessage(entries[0])));
      && IsEffect(c, s, PublishEntry(0), 0, e) && KeepsMessage(s.procs, 0, e.self)
      && ActsAs(Apply(s, 0, e), 0, Creator(entries[1..]))
    ensures entries == [] ==> IsEffect(c, s, EndCreate(0), 0, VANISH) && KeepsMessage(s.procs, 0, VANISH.self)
  {}

  /** One row a step: the entry steps start QUEUED, the others PENDING. */
  method CreateRows(graph: Graph) returns (rows: Rows)
    requires IsDict(graph)
    ensures rows == map n | n in graph.preds :: NewRow(graph, n)
  {
    hide IsDict, NewRow;
    NodesAreKeys(graph);
    rows := map[];
    for i := 0 to |graph.nodes|
      invariant rows == map n | n in graph.nodes[..i] :: NewRow(graph, n)
    {
      rows := rows[graph.nodes[i] := NewRow(graph, graph.nodes[i])];
    }
  }

  lemma NodesAreKeys(graph: Graph)
    requires IsDict(graph)
    ensures forall n :: n in graph.nodes[..|graph.nodes|] <==> n in graph.preds
  {
    assert graph.nodes[..|graph.nodes|] == graph.nodes;
  }

  /** The rest of `create_document`: publish the entry steps. */
  method PublishEntries(store: Store) returns (r: Attempt<()>)
    requires store.Valid() && store.Acts(0, Creator(EntryNodes(store.config.graph)))
    modifies store`run, store`messages, store`nextId
    ensures store.Valid() && Prolongs(old(store.run), store.run, 0)
    ensures r.Returned? ==> store.messages == PublishAll(old(store.messages), old(store.nextId),
                                                         EntryNodes(store.config.graph))
  {
    hide OnRun, IsEffect, Continues, Grows, BagMatches, EntryNodes;
    var todo := EntryNodes(store.config.graph);
    while todo != []
      invariant store.Valid() && Prolongs(old(store.run), store.run, 0) && store.Acts(0, Creator(todo))
      invariant PublishAll(store.messages, store.nextId, todo) ==
          PublishAll(old(store.messages), old(store.nextId), EntryNodes(store.config.graph))
      decreases |todo|
    {
      if * {
        return Raised;
      }
      store.NextIdIsFree();
      EntryLeads(store.config, Last(store.run), todo);
      store.PublishStep(todo[0], PublishEntry(0), 0, Become(Creator(todo[1..])).(spawn := Some(NewMessage(todo[0]))));
      todo := todo[1..];
    }
    store.NextIdIsFree();
    EntryLeads(store.config, Last(store.run), []);
    store.Observe(EndCreate(0), 0, VANISH);
    r := Returned(());
  }

  /** `create_document`: a new document of this organisation, every step row in place, its entry steps
      published. The rows stay when a publish raises. */
  method CreateDocument(graph: Graph, maxAttempts: nat, org: nat) returns (store: Store, r: Attempt<()>)
    requires ValidConfig(Config(graph, maxAttempts))
    ensures fresh(store) && store.Valid() && store.config == Config(graph, maxAttempts) && store.org == org
    ensures store.rows == Initial(store.config).rows && store.doc == Processing
    ensures r.Returned? ==> store.messages == PublishAll(map[], 1, EntryNodes(graph))
  {
    GraphIsDict(Config(graph, maxAttempts));
    hide OnRun, ValidConfig, IsDict, Initial, EntryNodes, NewRow, PublishAll, Prolongs, BagMatches;
    var created := CreateRows(graph);
    store := new Store(graph, maxAttempts, org, created);
    r := PublishEntries(store);
  }

  // ---- what a client is shown ----

  datatype StepOut = StepOut(status: StepStatus, attempts: nat, externalJobId: Option<JobId>)

  datatype DocumentDetail = DocumentDetail(status: DocumentStatus, steps: map<StepName, StepOut>,
                                           data: Option<ExtractedData>)

  ghost predicate Complete(d: ExtractedData) {
    d.ocrText.Some? && d.metadata.Some? && d.chunks.Some? && d.externalJobId.Some? && d.partnerResult.Some?
  }

  lemma ReadyIsComplete(store: Store)
    requires store.Valid() && NoOverlapEver(store.run) && store.doc == Ready
    requires {Ocr, Metadata, Chunking, ExternalCall} <= store.rows.Keys
    ensures |store.run.states| == |store.run.actions| + 1
    ensures Complete(Extracted(store.rows)) && ShowsOutputs(store.run, |store.run.actions|, Extracted(store.rows))
  {
    ReadyGate(store.config, store.run, |store.run.states| - 1);
    ReadyShowsOutputs(store.config, store.run, |store.run.states| - 1);
  }

  /** `get_document_detail`: nothing is told about a document of another organisation. The aggregate is shown
      for a READY document only, and then, unless writers of one step ever overlapped, none of its fields is
      null, and they are what the steps returned and what the partner sent for the job. */
  method GetDocumentDetail(documents: map<nat, Store>, org: nat, id: nat) returns (detail: Option<DocumentDetail>)
    requires forall d :: d in documents ==>
      documents[d].Valid() && {Ocr, Metadata, Chunking, ExternalCall} <= documents[d].rows.Keys
    ensures detail.Some? <==> id in documents && documents[id].org == org
    ensures detail.Some? ==>
      && var store := documents[id];
      && detail.value.status == store.doc
      && detail.value.steps ==
         (map n | n in store.rows :: StepOut(store.rows[n].status, store.rows[n].attempts, store.rows[n].externalJobId))
      && detail.value.data == (if store.doc == Ready then Some(Extracted(store.rows)) else None)
      && (detail.value.data.Some? && NoOverlapEver(store.run) ==>
            && Complete(detail.value.data.value) && |store.run.states| == |store.run.actions| + 1
            && ShowsOutputs(store.run, |store.run.actions|, detail.value.data.value))
  {
    if id !in documents || documents[id].org != org {
      return None;
    }
    var store := documents[id];
    hide OnRun, NoOverlapEver, Complete, Extracted, ShowsOutputs;
    var data := None;
    if store.doc == Ready {
      data := Some(Extracted(store.rows));
      if NoOverlapEver(store.run) {
        ReadyIsComplete(store);
      }
    }
    var steps := map n | n in store.rows :: StepOut(store.rows[n].status, store.rows[n].attempts,
                                                    store.rows[n].externalJobId);
    detail := Some(DocumentDetail(store.doc, steps, data));
  }
}

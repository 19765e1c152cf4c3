/** The values the pipeline stores and passes around. */
module Model {

  datatype Option<+T> = None | Some(value: T)

  /** The steps of the pipeline. `Added` leaves room for the steps a later graph may declare. */
  datatype StepName = Ocr | Metadata | Chunking | ExternalCall | Added(name: string)

  datatype StepStatus = Pending | Queued | Running | AwaitingCallback | Done | Error

  datatype DocumentStatus = Processing | Ready | Failed

  type Json = string
  type JobId = nat

  /** The JSON documents that appear in `result` columns, by their shape. */
  datatype Output =
    | Text(text: string)             // {"text": ...}
    | Chunks(chunks: seq<string>)    // {"chunks": [...]}
    | Dict(json: Json)               // any other object
    | JobHandle(job: JobId)          // {"external_job_id": ...}

  /** The columns of a step row that decide behaviour. */
  datatype Row = Row(status: StepStatus, attempts: nat, result: Option<Output>, externalJobId: Option<JobId>)

  type Rows = map<StepName, Row>

  datatype Event = StepEvent(step: StepName, status: StepStatus) | DocEvent(docStatus: DocumentStatus)

  /** A webhook whose signature and shape were already accepted. */
  datatype Hook = Hook(job: JobId, completed: bool, payload: Json)

  datatype Graph = Graph(nodes: seq<StepName>, preds: map<StepName, set<StepName>>)

  /** What a Python dict literal gives: distinct keys in declaration order, each with its value. */
  ghost predicate IsDict(g: Graph) {
    && (forall i, j :: 0 <= i < j < |g.nodes| ==> g.nodes[i] != g.nodes[j])
    && (forall n :: n in g.nodes <==> n in g.preds)
  }
}

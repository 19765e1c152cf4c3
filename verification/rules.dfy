/** What single statements of the pipeline compute, with no concurrency in sight. */
module Rules {
  import opened Model
  import opened Dag

  // ---- the object-relational session ----

  /** A commit writes a column only if its in-memory value differs from the value that was loaded. */
  function Column<T(==)>(loaded: T, changed: T, stored: T): T {
    if loaded == changed then stored else changed
  }

  /** The stored row after a commit of `changed`, by a session that had loaded `loaded`. */
  function Flush(loaded: Row, changed: Row, stored: Row): Row {
    Row(Column(loaded.status, changed.status, stored.status),
        Column(loaded.attempts, changed.attempts, stored.attempts),
        Column(loaded.result, changed.result, stored.result),
        Column(loaded.externalJobId, changed.externalJobId, stored.externalJobId))
  }

  /** Sessions that change different columns do not disturb each other, whatever they had loaded. */
  lemma DisjointCommitsCommute(one: Row, one': Row, two: Row, two': Row, stored: Row)
    requires one.status == one'.status || two.status == two'.status
    requires one.attempts == one'.attempts || two.attempts == two'.attempts
    requires one.result == one'.result || two.result == two'.result
    requires one.externalJobId == one'.externalJobId || two.externalJobId == two'.externalJobId
    ensures Flush(one, one', Flush(two, two', stored)) == Flush(two, two', Flush(one, one', stored))
  {}

  // ---- statuses ----

  predicate TerminalForRun(status: StepStatus) {
    status in {Done, AwaitingCallback, Error}
  }

  function DoneSet(rows: Rows): set<StepName> {
    set n | n in rows && rows[n].status == Done
  }

  predicate AnyError(rows: Rows) {
    exists n :: n in rows && rows[n].status == Error
  }

  predicate CallDone(rows: Rows) {
    ExternalCall in rows && rows[ExternalCall].status == Done
  }

  function DeriveDocumentStatus(rows: Rows): DocumentStatus {
    if AnyError(rows) then Failed
    else if CallDone(rows) then Ready
    else Processing
  }

  // ---- row changes ----

  function Saved(row: Row, output: Output): Row {
    if output.JobHandle? then row.(externalJobId := Some(output.job), status := AwaitingCallback)
    else row.(result := Some(output), status := Done)
  }

  function FailedOnce(row: Row, maxAttempts: nat): Row {
    row.(attempts := row.attempts + 1, status := if row.attempts + 1 >= maxAttempts then Error else Queued)
  }

  function Settled(row: Row, hook: Hook): Row {
    if hook.completed then row.(status := Done, result := Some(Dict(hook.payload)))
    else row.(status := Error)
  }

  // ---- what these changes mean, column by column ----

  /** A save leaves the output and DONE, or the job id and AWAITING_CALLBACK. */
  predicate SavedBy(before: Row, output: Output, after: Row) {
    match output
    case JobHandle(job) => after == Row(AwaitingCallback, before.attempts, before.result, Some(job))
    case _ => after == Row(Done, before.attempts, Some(output), before.externalJobId)
  }

  /** A completed webhook leaves its payload and DONE, a failed one leaves ERROR. */
  predicate SettledBy(before: Row, hook: Hook, after: Row) {
    && (hook.completed ==> after == Row(Done, before.attempts, Some(Dict(hook.payload)), before.externalJobId))
    && (!hook.completed ==> after == Row(Error, before.attempts, before.result, before.externalJobId))
  }

  /** A failed attempt is counted, and leaves ERROR if it was the last one, QUEUED otherwise. */
  predicate CountedBy(before: Row, maxAttempts: nat, after: Row) {
    && after.attempts == before.attempts + 1 && after.result == before.result
    && after.externalJobId == before.externalJobId
    && (after.status == Error <==> before.attempts + 1 >= maxAttempts) && after.status in {Error, Queued}
  }

  // ---- handler inputs and outputs ----

  datatype StepInput =
    | NoInput
    | OcrText(text: string)
    | CallArguments(text: string, metadata: Option<Output>, chunks: seq<string>)

  function TextOf(rows: Rows, n: StepName): Option<string> {
    if n in rows && rows[n].result.Some? && rows[n].result.value.Text? then Some(rows[n].result.value.text) else None
  }

  function ChunksOf(rows: Rows, n: StepName): Option<seq<string>> {
    if n in rows && rows[n].result.Some? && rows[n].result.value.Chunks? then Some(rows[n].result.value.chunks)
      else None
  }

  /** `None` where the Python expression would raise. */
  function TransformInput(step: StepName, loaded: Rows): Option<StepInput> {
    match step
    case Ocr => Some(NoInput)
    case Added(_) => Some(NoInput)
    case Metadata => (match TextOf(loaded, Ocr) case Some(t) => Some(OcrText(t)) case None => None)
    case Chunking => (match TextOf(loaded, Ocr) case Some(t) => Some(OcrText(t)) case None => None)
    case ExternalCall =>
      if TextOf(loaded, Ocr).Some? && Metadata in loaded && ChunksOf(loaded, Chunking).Some?
      then Some(CallArguments(TextOf(loaded, Ocr).value, loaded[Metadata].result, ChunksOf(loaded, Chunking).value))
      else None
  }

  /** The rows whose results a handler indexes. */
  function InputsOf(step: StepName): set<StepName> {
    match step
    case Ocr => {}
    case Added(_) => {}
    case Metadata => {Ocr}
    case Chunking => {Ocr}
    case ExternalCall => {Ocr, Metadata, Chunking}
  }

  /** What `transform_output(execute(...))` can be. */
  predicate Produces(step: StepName, output: Output) {
    match step
    case Ocr => output.Text?
    case Chunking => output.Chunks?
    case Metadata => output.Dict?
    case Added(_) => output.Dict?
    case ExternalCall => output.JobHandle?
  }

  /** What a stored result looks like: external_call's comes from the partner. */
  predicate StoredShape(step: StepName, output: Output) {
    if step == ExternalCall then output.Dict? else Produces(step, output)
  }

  // ---- the aggregate shown for a ready document ----

  datatype ExtractedData = ExtractedData(
    ocrText: Option<string>, metadata: Option<Output>, chunks: Option<seq<string>>,
    externalJobId: Option<JobId>, partnerResult: Option<Output>)

  function Extracted(rows: Rows): ExtractedData
    requires {Ocr, Metadata, Chunking, ExternalCall} <= rows.Keys
  {
    ExtractedData(
      TextOf(rows, Ocr), rows[Metadata].result, ChunksOf(rows, Chunking),
      rows[ExternalCall].externalJobId, rows[ExternalCall].result)
  }
}

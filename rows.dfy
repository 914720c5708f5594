/**
 Row types of the three tables the SpacetimeDB module keeps (`template`, `run`,
 `run_payload`), the argument records its reducers take, and the database
 state as a value: one map per table, keyed by the table's primary key.
 */
module Rows {

  datatype Option<T> = None | Some(value: T)

  /** Rust's `u32` and `u64`. The module stores these and never computes with them. */
  newtype u32 = x: int | 0 <= x < 0x1_0000_0000
  newtype u64 = x: int | 0 <= x < 0x1_0000_0000_0000_0000

  /** A row of `template`, primary key `id`. */
  datatype Template = Template(
    id: string,
    name: string,
    description: string,
    schemaJson: string,
    extractionRules: string,
    isActive: bool,
    createdAt: string,
    updatedAt: string)

  /** A row of `run`, primary key `id`. `provider` and `documentKey` default to None for old rows. */
  datatype Run = Run(
    id: string,
    mode: string,
    templateId: string,
    status: string,
    filename: string,
    mimeType: string,
    byteSize: u64,
    pageCount: u32,
    timingJson: string,
    statsJson: string,
    errorMessage: string,
    createdAt: string,
    startedAt: string,
    completedAt: string,
    provider: Option<string>,
    documentKey: Option<string>)

  /** A row of `run_payload`, primary key `runId`. */
  datatype RunPayload = RunPayload(
    runId: string,
    mdResults: string,
    layoutDetailsJson: string,
    layoutVisualizationJson: string,
    extractedFieldsJson: string,
    rawProviderJson: string)

  datatype TemplateUpsertArgs = TemplateUpsertArgs(
    id: string,
    name: string,
    description: string,
    schemaJson: string,
    extractionRules: string,
    isActive: bool,
    createdAt: string,
    updatedAt: string)

  datatype TemplateDeactivateArgs = TemplateDeactivateArgs(id: string)

  datatype RunCreateArgs = RunCreateArgs(
    id: string,
    mode: string,
    templateId: string,
    status: string,
    provider: string,
    documentKey: Option<string>,
    filename: string,
    mimeType: string,
    byteSize: u64,
    createdAt: string)

  datatype RunMarkProcessingArgs = RunMarkProcessingArgs(id: string, startedAt: string)

  datatype RunStorePayloadArgs = RunStorePayloadArgs(
    id: string,
    mdResults: string,
    layoutDetailsJson: string,
    layoutVisualizationJson: string,
    extractedFieldsJson: string,
    rawProviderJson: string,
    pageCount: u32)

  datatype RunMarkCompletedArgs = RunMarkCompletedArgs(
    id: string,
    completedAt: string,
    timingJson: string,
    statsJson: string)

  datatype RunMarkFailedArgs = RunMarkFailedArgs(
    id: string,
    completedAt: string,
    timingJson: string,
    errorMessage: string)

  datatype RunDeleteArgs = RunDeleteArgs(id: string)

  /** The whole database: each table as a map from primary key to row. */
  datatype Tables = Tables(
    template: map<string, Template>,
    run: map<string, Run>,
    runPayload: map<string, RunPayload>)

  /** The state the module is published with (`init` does nothing). */
  const Empty := Tables(map[], map[], map[])

  /** Every row is stored under its own primary key. */
  predicate KeysConsistent(db: Tables) {
    && (forall k :: k in db.template ==> db.template[k].id == k)
    && (forall k :: k in db.run ==> db.run[k].id == k)
    && (forall k :: k in db.runPayload ==> db.runPayload[k].runId == k)
  }

  /** Every run row records the OCR provider it was created with. */
  predicate ProvidersRecorded(db: Tables) {
    forall k :: k in db.run ==> db.run[k].provider.Some?
  }

  /** The upload metadata of a run, which only `run_create` writes. */
  predicate SameUpload(a: Run, b: Run) {
    && a.mode == b.mode
    && a.templateId == b.templateId
    && a.filename == b.filename
    && a.mimeType == b.mimeType
    && a.byteSize == b.byteSize
    && a.createdAt == b.createdAt
    && a.provider == b.provider
    && a.documentKey == b.documentKey
  }
}

/**
 The reducers of the SpacetimeDB module as functions from the database state
 before the call to the state after it. `now` is the reducer's timestamp as
 the module formats it; it may be empty, which is what the module stores when
 formatting fails. No reducer checks a run's current status before writing.
 */
module Reducers {
  import opened Rows

  const Processing := "processing"
  const Completed := "completed"
  const Failed := "failed"

  /** `template_upsert`: writes the row at `input.id`, inserting or replacing it. */
  function TemplateUpsert(db: Tables, input: TemplateUpsertArgs, now: string): (r: Tables)
    ensures input.id in r.template
    ensures var t := r.template[input.id];
      && t.id == input.id
      && t.name == input.name
      && t.description == input.description
      && t.schemaJson == input.schemaJson
      && t.extractionRules == input.extractionRules
      && t.isActive == input.isActive
    // an explicit creation time wins, then the stored one, then the clock
    ensures r.template[input.id].createdAt ==
      if input.createdAt != "" then input.createdAt
      else if input.id in db.template then db.template[input.id].createdAt
      else now
    ensures r.template[input.id].updatedAt == if input.updatedAt != "" then input.updatedAt else now
    ensures r.template.Keys == db.template.Keys + {input.id}
    ensures r.template - {input.id} == db.template - {input.id}
    ensures r.run == db.run && r.runPayload == db.runPayload
    ensures KeysConsistent(db) ==> KeysConsistent(r)
  {
    var createdAt :=
      if input.createdAt != "" then input.createdAt
      else if input.id in db.template then db.template[input.id].createdAt
      else now;
    var updatedAt := if input.updatedAt != "" then input.updatedAt else now;
    var row := Template(input.id, input.name, input.description, input.schemaJson,
                        input.extractionRules, input.isActive, createdAt, updatedAt);
    db.(template := db.template[input.id := row])
  }

  /** `template_deactivate`: soft-deletes an existing template; a missing id is ignored. */
  function TemplateDeactivate(db: Tables, input: TemplateDeactivateArgs, now: string): (r: Tables)
    ensures input.id !in db.template ==> r == db
    ensures r.template.Keys == db.template.Keys
    ensures input.id in db.template ==>
      var before, after := db.template[input.id], r.template[input.id];
      && !after.isActive
      && after.updatedAt == now
      && after.(isActive := before.isActive, updatedAt := before.updatedAt) == before
    ensures r.template - {input.id} == db.template - {input.id}
    ensures r.run == db.run && r.runPayload == db.runPayload
    ensures KeysConsistent(db) ==> KeysConsistent(r)
  {
    if input.id in db.template then
      var row := db.template[input.id];
      db.(template := db.template[input.id := row.(isActive := false, updatedAt := now)])
    else
      db
  }

  /** `run_create`: writes a fresh run row at `input.id`, replacing any row stored there. */
  function RunCreate(db: Tables, input: RunCreateArgs, now: string): (r: Tables)
    ensures input.id in r.run
    ensures var row := r.run[input.id];
      && row.id == input.id
      && row.mode == input.mode
      && row.templateId == input.templateId
      && row.status == input.status
      && row.filename == input.filename
      && row.mimeType == input.mimeType
      && row.byteSize == input.byteSize
      && row.provider == Some(input.provider)
      && row.documentKey == input.documentKey
    // nothing of a replaced row survives
    ensures var row := r.run[input.id];
      && row.pageCount == 0
      && row.timingJson == "{}"
      && row.statsJson == "{}"
      && row.errorMessage == ""
      && row.startedAt == ""
      && row.completedAt == ""
    ensures r.run[input.id].createdAt == if input.createdAt != "" then input.createdAt else now
    ensures r.run.Keys == db.run.Keys + {input.id}
    ensures r.run - {input.id} == db.run - {input.id}
    ensures r.template == db.template && r.runPayload == db.runPayload
    ensures KeysConsistent(db) ==> KeysConsistent(r)
    ensures ProvidersRecorded(db) ==> ProvidersRecorded(r)
  {
    var createdAt := if input.createdAt != "" then input.createdAt else now;
    var row := Run(input.id, input.mode, input.templateId, input.status, input.filename,
                   input.mimeType, input.byteSize, 0, "{}", "{}", "", createdAt, "", "",
                   Some(input.provider), input.documentKey);
    db.(run := db.run[input.id := row])
  }

  /** `run_mark_processing`: sets status and start time of an existing run, whatever its status. */
  function RunMarkProcessing(db: Tables, input: RunMarkProcessingArgs): (r: Tables)
    ensures input.id !in db.run ==> r == db
    ensures r.run.Keys == db.run.Keys
    ensures input.id in db.run ==>
      var before, after := db.run[input.id], r.run[input.id];
      && after.status == Processing
      && after.startedAt == input.startedAt
      && after.(status := before.status, startedAt := before.startedAt) == before
    ensures r.run - {input.id} == db.run - {input.id}
    ensures r.template == db.template && r.runPayload == db.runPayload
    ensures KeysConsistent(db) ==> KeysConsistent(r)
    ensures ProvidersRecorded(db) ==> ProvidersRecorded(r)
  {
    if input.id in db.run then
      var row := db.run[input.id];
      db.(run := db.run[input.id := row.(status := Processing, startedAt := input.startedAt)])
    else
      db
  }

  /**
   `run_store_payload`: records the page count on an existing run and writes
   the payload row, whether or not a run row exists.
   */
  function RunStorePayload(db: Tables, input: RunStorePayloadArgs): (r: Tables)
    ensures r.run.Keys == db.run.Keys
    ensures input.id in db.run ==>
      var before, after := db.run[input.id], r.run[input.id];
      && after.pageCount == input.pageCount
      && after.(pageCount := before.pageCount) == before
    ensures r.run - {input.id} == db.run - {input.id}
    ensures input.id in r.runPayload
    ensures var p := r.runPayload[input.id];
      && p.runId == input.id
      && p.mdResults == input.mdResults
      && p.layoutDetailsJson == input.layoutDetailsJson
      && p.layoutVisualizationJson == input.layoutVisualizationJson
      && p.extractedFieldsJson == input.extractedFieldsJson
      && p.rawProviderJson == input.rawProviderJson
    ensures r.runPayload.Keys == db.runPayload.Keys + {input.id}
    ensures r.runPayload - {input.id} == db.runPayload - {input.id}
    ensures r.template == db.template
    ensures KeysConsistent(db) ==> KeysConsistent(r)
    ensures ProvidersRecorded(db) ==> ProvidersRecorded(r)
  {
    var run :=
      if input.id in db.run then db.run[input.id := db.run[input.id].(pageCount := input.pageCount)]
      else db.run;
    var payload := RunPayload(input.id, input.mdResults, input.layoutDetailsJson,
                              input.layoutVisualizationJson, input.extractedFieldsJson,
                              input.rawProviderJson);
    db.(run := run, runPayload := db.runPayload[input.id := payload])
  }

  /** `run_mark_completed`: sets status, completion time, timings and stats; the error message stays. */
  function RunMarkCompleted(db: Tables, input: RunMarkCompletedArgs): (r: Tables)
    ensures input.id !in db.run ==> r == db
    ensures r.run.Keys == db.run.Keys
    ensures input.id in db.run ==>
      var before, after := db.run[input.id], r.run[input.id];
      && after.status == Completed
      && after.completedAt == input.completedAt
      && after.timingJson == input.timingJson
      && after.statsJson == input.statsJson
      && after.errorMessage == before.errorMessage
      && after.(status := before.status, completedAt := before.completedAt,
                timingJson := before.timingJson, statsJson := before.statsJson) == before
    ensures r.run - {input.id} == db.run - {input.id}
    ensures r.template == db.template && r.runPayload == db.runPayload
    ensures KeysConsistent(db) ==> KeysConsistent(r)
    ensures ProvidersRecorded(db) ==> ProvidersRecorded(r)
  {
    if input.id in db.run then
      var row := db.run[input.id];
      var done := row.(status := Completed, completedAt := input.completedAt,
                       timingJson := input.timingJson, statsJson := input.statsJson);
      db.(run := db.run[input.id := done])
    else
      db
  }

  /** `run_mark_failed`: sets status, completion time, timings and error message; the stats stay. */
  function RunMarkFailed(db: Tables, input: RunMarkFailedArgs): (r: Tables)
    ensures input.id !in db.run ==> r == db
    ensures r.run.Keys == db.run.Keys
    ensures input.id in db.run ==>
      var before, after := db.run[input.id], r.run[input.id];
      && after.status == Failed
      && after.completedAt == input.completedAt
      && after.timingJson == input.timingJson
      && after.errorMessage == input.errorMessage
      && after.statsJson == before.statsJson
      && after.(status := before.status, completedAt := before.completedAt,
                timingJson := before.timingJson, errorMessage := before.errorMessage) == before
    ensures r.run - {input.id} == db.run - {input.id}
    ensures r.template == db.template && r.runPayload == db.runPayload
    ensures KeysConsistent(db) ==> KeysConsistent(r)
    ensures ProvidersRecorded(db) ==> ProvidersRecorded(r)
  {
    if input.id in db.run then
      var row := db.run[input.id];
      var failed := row.(status := Failed, completedAt := input.completedAt,
                         timingJson := input.timingJson, errorMessage := input.errorMessage);
      db.(run := db.run[input.id := failed])
    else
      db
  }

  /** `run_delete`: removes the run and its payload; other rows and all templates stay. */
  function RunDelete(db: Tables, input: RunDeleteArgs): (r: Tables)
    ensures input.id !in r.run && input.id !in r.runPayload
    ensures r.run.Keys == db.run.Keys - {input.id}
    ensures r.runPayload.Keys == db.runPayload.Keys - {input.id}
    ensures forall k :: k in r.run ==> r.run[k] == db.run[k]
    ensures forall k :: k in r.runPayload ==> r.runPayload[k] == db.runPayload[k]
    ensures r.template == db.template
    ensures KeysConsistent(db) ==> KeysConsistent(r)
    ensures ProvidersRecorded(db) ==> ProvidersRecorded(r)
  {
    db.(run := db.run - {input.id}, runPayload := db.runPayload - {input.id})
  }
}

/**
 The module's database as the reducers see it: three tables. Every reducer
 except `run_delete` looks up the primary key with `find` before it changes a
 table in place through `insert` or `update` (`template_deactivate` and the
 `run_mark_*` reducers write nothing when it misses); `run_delete` deletes by
 key from both run tables.
 Each method is one reducer run as a single atomic step, and its new state is
 the one the matching function of `Reducers` gives.
 */
module Store {
  import opened Rows
  import Table
  import Reducers

  class Database {
    var template: map<string, Template>
    var run: map<string, Run>
    var runPayload: map<string, RunPayload>

    /** The three tables as one value. */
    function State(): Tables
      reads this
    {
      Tables(template, run, runPayload)
    }

    /** The primary-key invariant the host keeps for every table. */
    ghost predicate Valid()
      reads this
    {
      KeysConsistent(State())
    }

    /** A freshly published module: `init` leaves every table empty. */
    constructor ()
      ensures Valid()
      ensures State() == Empty
    {
      template, run, runPayload := map[], map[], map[];
    }

    method TemplateUpsert(input: TemplateUpsertArgs, now: string)
      requires Valid()
      modifies this
      ensures Valid()
      ensures State() == Reducers.TemplateUpsert(old(State()), input, now)
      ensures template.Keys == old(template.Keys) + {input.id}
      ensures template - {input.id} == old(template) - {input.id}
      ensures run == old(run) && runPayload == old(runPayload)
    {
      var existing := Table.Find(template, input.id);
      var createdAt;
      if input.createdAt != "" {
        createdAt := input.createdAt;
      } else if existing.Some? {
        createdAt := existing.value.createdAt;
      } else {
        createdAt := now;
      }
      var updatedAt := if input.updatedAt != "" then input.updatedAt else now;
      var row := Template(input.id, input.name, input.description, input.schemaJson,
                          input.extractionRules, input.isActive, createdAt, updatedAt);
      if existing.Some? {
        template := Table.Update(template, row.id, row);
      } else {
        template := Table.Insert(template, row.id, row);
      }
    }

    method TemplateDeactivate(input: TemplateDeactivateArgs, now: string)
      requires Valid()
      modifies this
      ensures Valid()
      ensures State() == Reducers.TemplateDeactivate(old(State()), input, now)
      ensures template.Keys == old(template.Keys)
      ensures template - {input.id} == old(template) - {input.id}
      ensures run == old(run) && runPayload == old(runPayload)
    {
      var existing := Table.Find(template, input.id);
      if existing.Some? {
        var row := existing.value;
        template := Table.Update(template, row.id, row.(isActive := false, updatedAt := now));
      }
    }

    method RunCreate(input: RunCreateArgs, now: string)
      requires Valid()
      modifies this
      ensures Valid()
      ensures State() == Reducers.RunCreate(old(State()), input, now)
      ensures run.Keys == old(run.Keys) + {input.id}
      ensures run - {input.id} == old(run) - {input.id}
      ensures template == old(template) && runPayload == old(runPayload)
    {
      var createdAt := if input.createdAt != "" then input.createdAt else now;
      var row := Run(input.id, input.mode, input.templateId, input.status, input.filename,
                     input.mimeType, input.byteSize, 0, "{}", "{}", "", createdAt, "", "",
                     Some(input.provider), input.documentKey);
      var existing := Table.Find(run, row.id);
      if existing.Some? {
        run := Table.Update(run, row.id, row);
      } else {
        run := Table.Insert(run, row.id, row);
      }
    }

    method RunMarkProcessing(input: RunMarkProcessingArgs)
      requires Valid()
      modifies this
      ensures Valid()
      ensures State() == Reducers.RunMarkProcessing(old(State()), input)
      ensures run.Keys == old(run.Keys)
      ensures run - {input.id} == old(run) - {input.id}
      ensures template == old(template) && runPayload == old(runPayload)
    {
      var existing := Table.Find(run, input.id);
      if existing.Some? {
        var row := existing.value;
        run := Table.Update(run, row.id, row.(status := Reducers.Processing, startedAt := input.startedAt));
      }
    }

    method RunStorePayload(input: RunStorePayloadArgs)
      requires Valid()
      modifies this
      ensures Valid()
      ensures State() == Reducers.RunStorePayload(old(State()), input)
      ensures run.Keys == old(run.Keys)
      ensures run - {input.id} == old(run) - {input.id}
      ensures runPayload.Keys == old(runPayload.Keys) + {input.id}
      ensures runPayload - {input.id} == old(runPayload) - {input.id}
      ensures template == old(template)
    {
      var existingRun := Table.Find(run, input.id);
      if existingRun.Some? {
        var row := existingRun.value;
        run := Table.Update(run, row.id, row.(pageCount := input.pageCount));
      }
      var payload := RunPayload(input.id, input.mdResults, input.layoutDetailsJson,
                                input.layoutVisualizationJson, input.extractedFieldsJson,
                                input.rawProviderJson);
      var existing := Table.Find(runPayload, payload.runId);
      if existing.Some? {
        runPayload := Table.Update(runPayload, payload.runId, payload);
      } else {
        runPayload := Table.Insert(runPayload, payload.runId, payload);
      }
    }

    method RunMarkCompleted(input: RunMarkCompletedArgs)
      requires Valid()
      modifies this
      ensures Valid()
      ensures State() == Reducers.RunMarkCompleted(old(State()), input)
      ensures run.Keys == old(run.Keys)
      ensures run - {input.id} == old(run) - {input.id}
      ensures template == old(template) && runPayload == old(runPayload)
    {
      var existing := Table.Find(run, input.id);
      if existing.Some? {
        var row := existing.value;
        run := Table.Update(run, row.id, row.(status := Reducers.Completed, completedAt := input.completedAt,
                                              timingJson := input.timingJson, statsJson := input.statsJson));
      }
    }

    method RunMarkFailed(input: RunMarkFailedArgs)
      requires Valid()
      modifies this
      ensures Valid()
      ensures State() == Reducers.RunMarkFailed(old(State()), input)
      ensures run.Keys == old(run.Keys)
      ensures run - {input.id} == old(run) - {input.id}
      ensures template == old(template) && runPayload == old(runPayload)
    {
      var existing := Table.Find(run, input.id);
      if existing.Some? {
        var row := existing.value;
        run := Table.Update(run, row.id, row.(status := Reducers.Failed, completedAt := input.completedAt,
                                              timingJson := input.timingJson, errorMessage := input.errorMessage));
      }
    }

    method RunDelete(input: RunDeleteArgs)
      requires Valid()
      modifies this
      ensures Valid()
      ensures State() == Reducers.RunDelete(old(State()), input)
      ensures input.id !in run && input.id !in runPayload
      ensures run == old(run) - {input.id} && runPayload == old(runPayload) - {input.id}
      ensures template == old(template)
    {
      runPayload := Table.Delete(runPayload, input.id);
      run := Table.Delete(run, input.id);
    }
  }
}

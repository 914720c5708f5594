/**
 Properties of sequences of reducer calls that clients make when they process
 runs and edit templates: the order of writes during one run, re-saving a
 template, and what the reducers do NOT enforce (status order, orphaned
 payloads), which callers must therefore enforce themselves.
 */
module Lifecycle {
  import opened Rows
  import opened Reducers
  import Replay
  import Table

  /** Saving a template again without a creation time keeps the one stored by the first save. */
  lemma ResaveKeepsCreatedAt(db: Tables, first: TemplateUpsertArgs, second: TemplateUpsertArgs,
                             now1: string, now2: string)
    requires second.id == first.id && second.createdAt == ""
    ensures var saved := TemplateUpsert(db, first, now1);
      var resaved := TemplateUpsert(saved, second, now2);
      && resaved.template[first.id].createdAt == saved.template[first.id].createdAt
      && resaved.template[first.id].name == second.name
  {
  }

  /** Deactivating twice differs from deactivating once only in the update time. */
  lemma DeactivateTwice(db: Tables, input: TemplateDeactivateArgs, now1: string, now2: string)
    ensures var once := TemplateDeactivate(db, input, now1);
      var twice := TemplateDeactivate(once, input, now2);
      && (input.id in once.template ==>
            twice == once.(template := once.template[input.id := once.template[input.id].(updatedAt := now2)]))
      && (input.id !in once.template ==> twice == once)
  {
  }

  /**
   The writes of a run that succeeds, in the order a client processing it makes
   them: create, mark processing, store payload, mark completed. The final
   row carries every value written and the upload metadata of the create,
   and the payload is present.
   */
  lemma CompletedRunWrites(db: Tables, create: RunCreateArgs, now: string, startedAt: string,
                           payload: RunStorePayloadArgs, done: RunMarkCompletedArgs)
    requires payload.id == create.id && done.id == create.id
    ensures var created := RunCreate(db, create, now);
      var processing := RunMarkProcessing(created, RunMarkProcessingArgs(create.id, startedAt));
      var final := RunMarkCompleted(RunStorePayload(processing, payload), done);
      && create.id in final.run
      && create.id in final.runPayload
      && final.runPayload[create.id].extractedFieldsJson == payload.extractedFieldsJson
      && var row := final.run[create.id];
      && row.status == Completed
      && row.startedAt == startedAt
      && row.completedAt == done.completedAt
      && row.pageCount == payload.pageCount
      && row.timingJson == done.timingJson
      && row.statsJson == done.statsJson
      && row.errorMessage == ""
      && SameUpload(row, created.run[create.id])
  {
  }

  /**
   The writes of a run whose processing throws before the payload is stored:
   create, mark processing, mark failed. The stats keep the placeholder that
   `run_create` wrote and the page count stays 0.
   */
  lemma FailedRunWrites(db: Tables, create: RunCreateArgs, now: string, startedAt: string,
                        failure: RunMarkFailedArgs)
    requires failure.id == create.id
    ensures var created := RunCreate(db, create, now);
      var processing := RunMarkProcessing(created, RunMarkProcessingArgs(create.id, startedAt));
      var final := RunMarkFailed(processing, failure);
      && create.id in final.run
      && var row := final.run[create.id];
      && row.status == Failed
      && row.errorMessage == failure.errorMessage
      && row.timingJson == failure.timingJson
      && row.statsJson == "{}"
      && row.pageCount == 0
      && row.startedAt == startedAt
  {
  }

  /**
   Status is not kept monotonic by the reducers: marking a finished run as
   processing reopens it, and it keeps its completion time, so a run can be
   `processing` with `completedAt` set.
   */
  lemma MarkProcessingReopensFinishedRun(db: Tables, input: RunMarkProcessingArgs)
    requires input.id in db.run
    requires db.run[input.id].status == Completed || db.run[input.id].status == Failed
    ensures var row := RunMarkProcessing(db, input).run[input.id];
      && row.status == Processing
      && row.completedAt == db.run[input.id].completedAt
  {
  }

  /** Marking a failed run completed keeps its error message: a completed run can carry one. */
  lemma CompletedAfterFailedKeepsError(db: Tables, failure: RunMarkFailedArgs,
                                       done: RunMarkCompletedArgs)
    requires failure.id in db.run && done.id == failure.id
    ensures var row := RunMarkCompleted(RunMarkFailed(db, failure), done).run[failure.id];
      && row.status == Completed
      && row.errorMessage == failure.errorMessage
  {
  }

  /** Storing a payload for an id with no run row leaves a payload without a run. */
  lemma StorePayloadWithoutRun(db: Tables, input: RunStorePayloadArgs)
    requires input.id !in db.run
    ensures input.id in RunStorePayload(db, input).runPayload
    ensures input.id !in RunStorePayload(db, input).run
  {
  }

  /** Re-creating a run leaves the payload of the earlier run with that id in place. */
  lemma RecreateKeepsOldPayload(db: Tables, create: RunCreateArgs, now: string)
    requires create.id in db.runPayload
    ensures create.id in RunCreate(db, create, now).runPayload
    ensures RunCreate(db, create, now).run[create.id].pageCount == 0
    ensures RunCreate(db, create, now).runPayload[create.id] == db.runPayload[create.id]
  {
  }

  /** Deleting a run removes a payload stored for it, whatever was written before. */
  lemma DeleteAfterStoreLeavesNoPayload(db: Tables, payload: RunStorePayloadArgs)
    ensures var final := RunDelete(RunStorePayload(db, payload), RunDeleteArgs(payload.id));
      && payload.id !in final.runPayload
      && payload.id !in final.run
      && final.template == db.template
  {
  }

  /** The run a call writes to, for the calls that write one run's rows only. */
  function RunTarget(c: Replay.Call): Option<string> {
    match c
    case RunCreate(a, _) => Some(a.id)
    case RunMarkProcessing(a) => Some(a.id)
    case RunStorePayload(a) => Some(a.id)
    case RunMarkCompleted(a) => Some(a.id)
    case RunMarkFailed(a) => Some(a.id)
    case RunDelete(a) => Some(a.id)
    case _ => None
  }

  /*
   Commutation is proved through a per-key form of the run calls: each call
   becomes one write at its target key (`SetAt`) of rows computed from the old
   rows at that key only (`AtTarget`), and `StepIsLocal` proves this form equal
   to `Replay.Step`. Writes at different keys commute (`SetAtCommutes`), which
   a direct case split over both calls is too costly for the solver to show.
   */

  /** Upserts `v` at `k`, or deletes `k` when `v` is None, through the table operations. */
  function SetAt<V>(m: map<string, V>, k: string, v: Option<V>): (r: map<string, V>)
    ensures v.Some? ==> k in r && r[k] == v.value
    ensures v.None? ==> k !in r
    ensures forall j :: j != k ==> (j in r <==> j in m) && (j in m ==> r[j] == m[j])
  {
    match v
    case Some(x) => if k in m then Table.Update(m, k, x) else Table.Insert(m, k, x)
    case None => Table.Delete(m, k)
  }

  /** Writes at two different keys can be done in either order. */
  lemma SetAtCommutes<V>(m: map<string, V>, k1: string, v1: Option<V>, k2: string, v2: Option<V>)
    requires k1 != k2
    ensures SetAt(SetAt(m, k1, v1), k2, v2) == SetAt(SetAt(m, k2, v2), k1, v1)
  {
  }

  /**
   The run row and payload row that a run call leaves at its target, given
   only the rows that were there: each such call looks at no other key.
   */
  function AtTarget(c: Replay.Call, row: Option<Run>, payload: Option<RunPayload>): (Option<Run>, Option<RunPayload>)
    requires RunTarget(c).Some?
  {
    match c
    case RunCreate(a, now) =>
      (Some(Run(a.id, a.mode, a.templateId, a.status, a.filename, a.mimeType, a.byteSize, 0, "{}", "{}", "",
                if a.createdAt != "" then a.createdAt else now, "", "", Some(a.provider), a.documentKey)),
       payload)
    case RunMarkProcessing(a) =>
      (if row.Some? then Some(row.value.(status := Processing, startedAt := a.startedAt)) else None, payload)
    case RunStorePayload(a) =>
      (if row.Some? then Some(row.value.(pageCount := a.pageCount)) else None,
       Some(RunPayload(a.id, a.mdResults, a.layoutDetailsJson, a.layoutVisualizationJson,
                       a.extractedFieldsJson, a.rawProviderJson)))
    case RunMarkCompleted(a) =>
      (if row.Some? then Some(row.value.(status := Completed, completedAt := a.completedAt,
                                         timingJson := a.timingJson, statsJson := a.statsJson)) else None,
       payload)
    case RunMarkFailed(a) =>
      (if row.Some? then Some(row.value.(status := Failed, completedAt := a.completedAt,
                                         timingJson := a.timingJson, errorMessage := a.errorMessage)) else None,
       payload)
    case RunDelete(a) => (None, None)
  }

  /** A run call changes the tables only at its target, as `AtTarget` says. */
  lemma StepIsLocal(db: Tables, c: Replay.Call)
    requires RunTarget(c).Some?
    ensures var t := RunTarget(c).value;
      var after := AtTarget(c, Table.Find(db.run, t), Table.Find(db.runPayload, t));
      Replay.Step(db, c) == db.(run := SetAt(db.run, t, after.0), runPayload := SetAt(db.runPayload, t, after.1))
  {
    var t := RunTarget(c).value;
    var after := AtTarget(c, Table.Find(db.run, t), Table.Find(db.runPayload, t));
    var r := Replay.Step(db, c);
    assert r.run == SetAt(db.run, t, after.0);
    assert r.runPayload == SetAt(db.runPayload, t, after.1);
  }

  /**
   Two clients working on different runs may interleave their writes (create,
   status, payload and delete) in any order: the final state is the same.
   */
  lemma DifferentRunsCommute(db: Tables, c1: Replay.Call, c2: Replay.Call)
    requires RunTarget(c1).Some? && RunTarget(c2).Some?
    requires RunTarget(c1).value != RunTarget(c2).value
    ensures Replay.Step(Replay.Step(db, c1), c2) == Replay.Step(Replay.Step(db, c2), c1)
  {
    var t1, t2 := RunTarget(c1).value, RunTarget(c2).value;
    var db1, db2 := Replay.Step(db, c1), Replay.Step(db, c2);
    StepIsLocal(db, c1);
    StepIsLocal(db, c2);
    StepIsLocal(db1, c2);
    StepIsLocal(db2, c1);
    var e1 := AtTarget(c1, Table.Find(db.run, t1), Table.Find(db.runPayload, t1));
    var e2 := AtTarget(c2, Table.Find(db.run, t2), Table.Find(db.runPayload, t2));
    assert Table.Find(db1.run, t2) == Table.Find(db.run, t2);
    assert Table.Find(db1.runPayload, t2) == Table.Find(db.runPayload, t2);
    assert Table.Find(db2.run, t1) == Table.Find(db.run, t1);
    assert Table.Find(db2.runPayload, t1) == Table.Find(db.runPayload, t1);
    SetAtCommutes(db.run, t1, e1.0, t2, e2.0);
    SetAtCommutes(db.runPayload, t1, e1.1, t2, e2.1);
  }
}

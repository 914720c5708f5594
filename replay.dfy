/**
 The host runs the module's reducers one at a time, each atomically, in the
 order the calls arrive. A `Call` is one such invocation; `Apply` runs a
 sequence of them. The lemmas here state what holds after ANY sequence of
 calls, which is what the rest of the system can rely on.
 */
module Replay {
  import opened Rows
  import Reducers

  /** One reducer invocation; the reducers that read the clock carry the timestamp they see. */
  datatype Call =
    | TemplateUpsert(upsertArgs: TemplateUpsertArgs, now: string)
    | TemplateDeactivate(deactivateArgs: TemplateDeactivateArgs, now: string)
    | RunCreate(createArgs: RunCreateArgs, now: string)
    | RunMarkProcessing(processingArgs: RunMarkProcessingArgs)
    | RunStorePayload(payloadArgs: RunStorePayloadArgs)
    | RunMarkCompleted(completedArgs: RunMarkCompletedArgs)
    | RunMarkFailed(failedArgs: RunMarkFailedArgs)
    | RunDelete(deleteArgs: RunDeleteArgs)

  /** Dispatch of one call to its reducer; no reducer removes a template or breaks the key invariants. */
  function Step(db: Tables, c: Call): (r: Tables)
    ensures KeysConsistent(db) ==> KeysConsistent(r)
    ensures ProvidersRecorded(db) ==> ProvidersRecorded(r)
    ensures db.template.Keys <= r.template.Keys
  {
    match c
    case TemplateUpsert(a, now) => Reducers.TemplateUpsert(db, a, now)
    case TemplateDeactivate(a, now) => Reducers.TemplateDeactivate(db, a, now)
    case RunCreate(a, now) => Reducers.RunCreate(db, a, now)
    case RunMarkProcessing(a) => Reducers.RunMarkProcessing(db, a)
    case RunStorePayload(a) => Reducers.RunStorePayload(db, a)
    case RunMarkCompleted(a) => Reducers.RunMarkCompleted(db, a)
    case RunMarkFailed(a) => Reducers.RunMarkFailed(db, a)
    case RunDelete(a) => Reducers.RunDelete(db, a)
  }

  /** The state after running `calls` in order from `db`. */
  function Apply(db: Tables, calls: seq<Call>): Tables
    decreases |calls|
  {
    if calls == [] then db else Apply(Step(db, calls[0]), calls[1..])
  }

  /** True when `c` is a `run_create` for run `id`, the only call that writes upload metadata. */
  predicate CreatesRun(c: Call, id: string) {
    c.RunCreate? && c.createArgs.id == id
  }

  /** True when `c` is a `template_upsert` for `id` that supplies its own creation time. */
  predicate SetsTemplateCreatedAt(c: Call, id: string) {
    c.TemplateUpsert? && c.upsertArgs.id == id && c.upsertArgs.createdAt != ""
  }

  /** After any sequence of reducer calls every row is still stored under its own key. */
  lemma {:induction false} ApplyKeepsKeysConsistent(db: Tables, calls: seq<Call>)
    requires KeysConsistent(db)
    ensures KeysConsistent(Apply(db, calls))
    decreases |calls|
  {
    if calls != [] {
      ApplyKeepsKeysConsistent(Step(db, calls[0]), calls[1..]);
    }
  }

  /** No reducer removes a template: deactivation is the only way to retire one. */
  lemma {:induction false} ApplyNeverRemovesTemplates(db: Tables, calls: seq<Call>)
    ensures db.template.Keys <= Apply(db, calls).template.Keys
    decreases |calls|
  {
    if calls != [] {
      ApplyNeverRemovesTemplates(Step(db, calls[0]), calls[1..]);
    }
  }

  /** Runs created through this module always record their provider. */
  lemma {:induction false} ApplyKeepsProvidersRecorded(db: Tables, calls: seq<Call>)
    requires ProvidersRecorded(db)
    ensures ProvidersRecorded(Apply(db, calls))
    decreases |calls|
  {
    if calls != [] {
      ApplyKeepsProvidersRecorded(Step(db, calls[0]), calls[1..]);
    }
  }

  /** From the freshly published module, every reachable state has both invariants. */
  lemma ReachableStatesAreConsistent(calls: seq<Call>)
    ensures KeysConsistent(Apply(Empty, calls))
    ensures ProvidersRecorded(Apply(Empty, calls))
  {
    ApplyKeepsKeysConsistent(Empty, calls);
    ApplyKeepsProvidersRecorded(Empty, calls);
  }

  /** One call that is not a `run_create` for `id` keeps the upload metadata of run `id`. */
  lemma StepKeepsUpload(db: Tables, c: Call, id: string)
    requires !CreatesRun(c, id)
    ensures id in Step(db, c).run ==> id in db.run && SameUpload(db.run[id], Step(db, c).run[id])
  {
  }

  /**
   Upload metadata (mode, template, file name, MIME type, size, creation time,
   provider, document key) of a run changes only through a new `run_create`
   for that run: without one, a run present at the end was present at the
   start with the same metadata.
   */
  lemma {:induction false} ApplyKeepsUpload(db: Tables, calls: seq<Call>, id: string)
    requires forall i :: 0 <= i < |calls| ==> !CreatesRun(calls[i], id)
    ensures id in Apply(db, calls).run ==>
      id in db.run && SameUpload(db.run[id], Apply(db, calls).run[id])
    decreases |calls|
  {
    if calls != [] {
      StepKeepsUpload(db, calls[0], id);
      ApplyKeepsUpload(Step(db, calls[0]), calls[1..], id);
    }
  }

  /** One call that does not supply a creation time for template `id` keeps its creation time. */
  lemma StepKeepsTemplateCreatedAt(db: Tables, c: Call, id: string)
    requires id in db.template
    requires !SetsTemplateCreatedAt(c, id)
    ensures id in Step(db, c).template
    ensures Step(db, c).template[id].createdAt == db.template[id].createdAt
  {
  }

  /**
   A template's creation time survives every later call, re-upserts and
   deactivations included, unless an upsert for it supplies a non-empty one.
   */
  lemma {:induction false} ApplyKeepsTemplateCreatedAt(db: Tables, calls: seq<Call>, id: string)
    requires id in db.template
    requires forall i :: 0 <= i < |calls| ==> !SetsTemplateCreatedAt(calls[i], id)
    ensures id in Apply(db, calls).template
    ensures Apply(db, calls).template[id].createdAt == db.template[id].createdAt
    decreases |calls|
  {
    if calls != [] {
      StepKeepsTemplateCreatedAt(db, calls[0], id);
      ApplyKeepsTemplateCreatedAt(Step(db, calls[0]), calls[1..], id);
    }
  }
}

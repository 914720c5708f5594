# SpacetimeDB persistence module for OCR runs and templates

This project models the server-side SpacetimeDB module of the OCR evaluation
console (`spacetimedb/src/lib.rs`). It is the remote tabular store behind the
persistence adapter. The module keeps three tables, each keyed by its primary key:

- `template`, keyed by `id`: extraction templates (name, JSON schema, rules, active flag, timestamps);
- `run`, keyed by `id`: run records (mode, template, status, upload metadata, page count, timings, stats, error, timestamps, provider, document key);
- `run_payload`, keyed by `run_id`: the stored results of a run (markdown, layout JSON, visualisation JSON, extracted fields JSON, raw provider JSON).

The module's reducers write these tables:

- templates: `template_upsert` and `template_deactivate`;
- run lifecycle: `run_create`, `run_mark_processing`, `run_store_payload`, `run_mark_completed`, `run_mark_failed` and `run_delete`.

Every reducer except `run_delete` looks up the key with `find` before it writes: `run_create` and `template_upsert` then call `update` or `insert`, `run_store_payload` looks up both run tables and writes the payload either way, and `template_deactivate` and the `run_mark_*` reducers write nothing when the key is missing. `run_delete` deletes by key from both run tables without a lookup.

Layout:

- `rows.dfy` (module `Rows`): the row types, the argument records, and the database state as a value (`Tables`, one map per table). It also defines the invariants `KeysConsistent` (every row is stored under its own key) and `ProvidersRecorded`, and the predicate `SameUpload` (equal upload metadata).
- `table.dfy` (module `Table`): the primary-key index operations the reducers call. The host rejects an `insert` whose key already exists and an `update` whose key is missing. These are the preconditions of `Insert` and `Update`, and the reducers' `find` guards meet them.
- `reducers.dfy` (module `Reducers`): each reducer as a function from the old state to the new one. The contracts say which key and which fields are written and with what, and that everything else stays the same.
- `store.dfy` (module `Store`): class `Database` with the three tables as `map` fields. It has one `modifies this` method per reducer, written as the source works: look up the key, then update the row in place or insert it. Each method proves that its new state is the one the matching `Reducers` function gives, that it keeps the key invariant, and which tables it leaves alone.
- `replay.dfy` (module `Replay`): a reducer call as a value (`Call`), `Step` to run one call and `Apply` to run a sequence of calls. The lemmas state what holds after ANY sequence of calls.
- `lifecycle.dfy` (module `Lifecycle`): what the write sequences for one successful or one failed run produce, and what the reducers do not enforce. It also proves that the writes of `run_create`, the `run_mark_*` reducers, `run_store_payload` and `run_delete` to two different runs can be interleaved in either order.

The reducer timestamp (`now_iso`) is an input: every reducer that reads the clock takes `now: string`. This value may be `""`, which is what the module stores when formatting fails.

## Model

| member | source | states |
|---|---|---|
| `Table.Find` | spacetimedb/src/lib.rs:136 | a primary-key lookup finds a row exactly when the key is present, and returns the stored row |
| `Table.Insert` | spacetimedb/src/lib.rs:164 | `insert` needs an absent key; it adds exactly that key with the row and keeps every other row |
| `Table.Update` | spacetimedb/src/lib.rs:162 | `update` needs a present key; it replaces that row only, and the key set is unchanged |
| `Table.Delete` | spacetimedb/src/lib.rs:281-282 | `delete` removes the key if present and keeps every other row; a missing key is not an error |
| `Reducers.TemplateUpsert` | spacetimedb/src/lib.rs:133-166 | always leaves a row at `input.id` with the input's name, description, schema, rules and active flag. `created_at` is the input's if non-empty, else the stored row's, else `now`; `updated_at` is the input's if non-empty, else `now`. The key is inserted or updated, and no other template and no run or payload changes |
| `Reducers.TemplateDeactivate` | spacetimedb/src/lib.rs:168-177 | on an existing id, only `is_active := false` and `updated_at := now` change. On a missing id the state is unchanged |
| `Reducers.RunCreate` | spacetimedb/src/lib.rs:179-214 | stores a row at `input.id` with the input's mode, template, status (copied verbatim), file metadata and document key. It sets `provider = Some(input.provider)`, page count 0, `"{}"` timings and stats, and empty error, start and completion times. `created_at` is the input's if non-empty, else `now`. An existing row is replaced whole; other runs, templates and payloads are unchanged |
| `Reducers.RunMarkProcessing` | spacetimedb/src/lib.rs:216-225 | on an existing run, whatever its status, only status (`"processing"`) and `started_at` change. A missing id is a no-op |
| `Reducers.RunStorePayload` | spacetimedb/src/lib.rs:227-251 | on an existing run, only `page_count` changes. The payload row at `input.id` is inserted or replaced with the five strings even when no run row exists. Nothing else changes |
| `Reducers.RunMarkCompleted` | spacetimedb/src/lib.rs:253-264 | on an existing run, only status (`"completed"`), `completed_at`, timings and stats change, so the error message stays. A missing id is a no-op |
| `Reducers.RunMarkFailed` | spacetimedb/src/lib.rs:266-277 | on an existing run, only status (`"failed"`), `completed_at`, timings and error message change, so the stats stay. A missing id is a no-op |
| `Reducers.RunDelete` | spacetimedb/src/lib.rs:279-283 | afterwards neither `run` nor `run_payload` has the key. Every other run and payload row and the whole template table are unchanged |
| `Store.Database.constructor` | spacetimedb/src/lib.rs:123-124 | the module starts with three empty tables, which satisfy the key invariant |
| `Store.Database.TemplateUpsert` | spacetimedb/src/lib.rs:133-166 | find, then update or insert, gives the state `Reducers.TemplateUpsert` describes. It keeps the key invariant, and the run and payload tables are untouched |
| `Store.Database.TemplateDeactivate` | spacetimedb/src/lib.rs:168-177 | updates in place to the state `Reducers.TemplateDeactivate` describes; the template key set and the other tables are unchanged |
| `Store.Database.RunCreate` | spacetimedb/src/lib.rs:179-214 | builds the row, then update or insert, gives the state `Reducers.RunCreate` describes. Templates and payloads are untouched |
| `Store.Database.RunMarkProcessing` | spacetimedb/src/lib.rs:216-225 | updates in place to the state `Reducers.RunMarkProcessing` describes; the run key set is unchanged |
| `Store.Database.RunStorePayload` | spacetimedb/src/lib.rs:227-251 | updates the run if present, then updates or inserts the payload. The result is the state `Reducers.RunStorePayload` describes |
| `Store.Database.RunMarkCompleted` | spacetimedb/src/lib.rs:253-264 | updates in place to the state `Reducers.RunMarkCompleted` describes |
| `Store.Database.RunMarkFailed` | spacetimedb/src/lib.rs:266-277 | updates in place to the state `Reducers.RunMarkFailed` describes |
| `Store.Database.RunDelete` | spacetimedb/src/lib.rs:279-283 | deletes the payload and then the run. Both tables lose exactly that key, and templates are untouched |
| `Replay.Step` | spacetimedb/src/lib.rs:132-283 | every reducer keeps rows stored under their own key and keeps every run's provider recorded. No reducer removes a template |
| `Replay.ApplyKeepsKeysConsistent` | spacetimedb/src/lib.rs:7-52 | after any sequence of reducer calls, every row is still stored under its own primary key |
| `Replay.ApplyNeverRemovesTemplates` | spacetimedb/src/lib.rs:168-177 | templates are only soft-deleted: no sequence of calls removes a template key |
| `Replay.ApplyKeepsProvidersRecorded` | spacetimedb/src/lib.rs:204 | if every run records a provider, it still does after any sequence of calls |
| `Replay.ReachableStatesAreConsistent` | spacetimedb/src/lib.rs:123-124 | every state reachable from the empty module satisfies both invariants, so only pre-existing rows can lack a provider |
| `Replay.ApplyKeepsUpload` | spacetimedb/src/lib.rs:189-206 | without a new `run_create` for a run, its upload metadata (mode, template, file name, MIME type, size, creation time, provider, document key) never changes. A run present at the end was present at the start |
| `Replay.ApplyKeepsTemplateCreatedAt` | spacetimedb/src/lib.rs:137-143 | a template's creation time survives any sequence of calls unless an upsert for it supplies a non-empty one |
| `Lifecycle.ResaveKeepsCreatedAt` | spacetimedb/src/lib.rs:137-143 | re-upserting with an empty `created_at` keeps the first save's creation time while taking the new name |
| `Lifecycle.DeactivateTwice` | spacetimedb/src/lib.rs:169-177 | when the template exists, the state after deactivating twice is the state after deactivating once with only that template's `updated_at` changed to the second time; when it does not, the second call changes nothing |
| `Lifecycle.CompletedRunWrites` | spacetimedb/src/lib.rs:179-264 | create, then mark processing, then store payload, then mark completed gives a completed row. It carries the start time, completion time, page count, timings and stats written, an empty error and the create's upload metadata. The payload is present |
| `Lifecycle.FailedRunWrites` | spacetimedb/src/lib.rs:179-277 | create, then mark processing, then mark failed gives a failed row with the error and timings written. The stats are still `"{}"` and the page count is 0 |
| `Lifecycle.MarkProcessingReopensFinishedRun` | spacetimedb/src/lib.rs:216-225 | marking a completed or failed run as processing sets its status to `"processing"` and keeps its completion time |
| `Lifecycle.CompletedAfterFailedKeepsError` | spacetimedb/src/lib.rs:253-277 | marking a failed run completed gives a completed run that still carries the error message |
| `Lifecycle.StorePayloadWithoutRun` | spacetimedb/src/lib.rs:227-251 | storing a payload for an id with no run row leaves a payload without a run |
| `Lifecycle.RecreateKeepsOldPayload` | spacetimedb/src/lib.rs:208-213 | re-creating a run resets its page count but leaves the earlier payload with that id in place |
| `Lifecycle.DeleteAfterStoreLeavesNoPayload` | spacetimedb/src/lib.rs:280-283 | after storing a payload and deleting the run, neither row is present and templates are as before |
| `Lifecycle.StepIsLocal` | spacetimedb/src/lib.rs:179-283 | each per-run reducer (create, processing, payload, completed, failed, delete) changes the run and payload tables only at its own key. The new rows depend only on the rows that were at that key |
| `Lifecycle.DifferentRunsCommute` | spacetimedb/src/lib.rs:179-283 | two per-run calls (create, processing, payload, completed, failed, delete) on different run ids give the same final state in either order |

## Guarantees callers must provide

The module does not keep a run's status monotonic (queued, then processing, then completed or failed). It also does not keep `completed_at` for finished runs only, `error_message` empty unless the run failed, or each payload tied to exactly one run. Callers must provide these through the order of their calls. The model follows the code:

- `Lifecycle.MarkProcessingReopensFinishedRun` shows that status can move backwards and leave a stale `completed_at`;
- `Lifecycle.CompletedAfterFailedKeepsError` shows that a completed run can carry an error message;
- `Lifecycle.StorePayloadWithoutRun` and `Lifecycle.RecreateKeepsOldPayload` show that a payload can exist without a run, or outlive the run it was written for, until `run_delete` is called.

The contracts of `Reducers` show further values that later calls may overwrite:

- an upsert with a non-empty `created_at` replaces a template's creation time (`Reducers.TemplateUpsert`, lib.rs:137-138);
- `run_create` on an existing id replaces its upload metadata and creation time (`Reducers.RunCreate`, lib.rs:208-210);
- a later `run_store_payload` rewrites `page_count`, and `run_create` resets it to 0 (`Reducers.RunStorePayload`, `Reducers.RunCreate`).

## Left out

- `init`, `on_connect`, `on_disconnect` (lib.rs:123-130): these reducers do nothing. Only the empty initial state is modelled, as the constructor and `Rows.Empty`.
- `now_iso` (lib.rs:3-5): RFC 3339 formatting of the host clock is a foreign call. Its result, including the empty-string fallback, is the `now` parameter.
- The SpacetimeDB table, reducer and type macros: each table is a plain map from its primary key to its row. The `#[default(None)]` schema migration default is reflected only in `provider` and `document_key` being optional.
- The contents of the JSON string fields: they are opaque strings that are stored and never parsed.
- The host's transactions, concurrency and panic handling: each reducer is one atomic step. A duplicate-key `insert` or a missing-key `update` is a precondition that the reducers always meet, not a modelled failure.
- `u32` and `u64` are range-restricted newtypes. The module only copies these values, so no overflow can arise.
- Client-side queries (reads of runs, payloads and templates over SQL) are not part of this module's source.

# Dataset embedding synchronisation — a Dafny model

The app server works with two stores. The relational store holds datasets and
their datapoints. The vector index holds embedding points tagged with a datapoint
id and a dataset id. The dataset routes in `app-server/src/routes/datasets.rs` aim
to keep one point per datapoint for every dataset whose `indexed_on` column is set.
They do not guarantee it: a failed call can leave the two apart, and some routes
index without reading the dataset (see "## Left out"). The routes are:

- deleting a dataset;
- uploading a file of datapoints;
- creating, updating and deleting datapoint embeddings;
- deleting every datapoint of a dataset;
- re-indexing a dataset on a new column, or on none.

This project models each of those handlers as the ordered trace of its calls into
the two stores, together with the answer it gives.

- `types.dfy`: the entities (datapoints, datasets, deletion filters), the store
  calls, the responses, and `Replies`. `Replies` is what the stores answer during
  one request. It also gives the positions in the request's call trace whose call
  returns an error.
- `trace.dfy`: `Steps`, the meaning of a straight line of awaited calls each
  followed by `?`, which stops after the first call that fails. It comes with its
  lemmas and with the `Stores` class, which records every call a handler makes.
- `filters.dfy`: the three filter shapes the routes send with a deletion:
  - `{datasource_id}`;
  - `{id}`;
  - `{id, datasource_id}`.

  It also states which embedding points a filter list selects. A point is tagged
  with its datapoint id and its dataset id. A deletion is taken to remove the
  points that match at least one filter of the list; this is an assumption about
  the vector store.
- `batching.dfy`: `BATCH_SIZE = 50`, chunking with the behaviour of Rust's
  `slice::chunks`, and the index calls made for a list of chunks.
- `datasets.dfy`: one imperative method per handler. Each method makes its calls
  on a fresh `Stores` in the order the route makes them and is proved equal to a
  specification function (`...Spec`). Lemmas then state what each route promises
  about its trace and its answer.

Re-indexing loops over the chunks. `IndexChunks` keeps that loop, with its
invariants.

## Model

| member | source | states |
|---|---|---|
| Trace.Stores.constructor | app-server/src/routes/datasets.rs:228-236 | a request starts with no store call made |
| Trace.Stores.Send | app-server/src/routes/datasets.rs:31-39 | an awaited store call is appended to the request's trace and reports whether it failed |
| Trace.Stores.GetDataset | app-server/src/routes/datasets.rs:237 | `get_dataset` is recorded and returns the stored dataset or nothing |
| Trace.Stores.GetFullDatapoints | app-server/src/routes/datasets.rs:245 | `get_full_datapoints` is recorded and returns the dataset's datapoints |
| Trace.Stores.DeleteAllDatapoints | app-server/src/routes/datasets.rs:207 | `delete_all_datapoints` is recorded and returns the deleted ids |
| Trace.Stores.InsertDatapointsFromFile | app-server/src/routes/datasets.rs:65-66 | `insert_datapoints_from_file` is recorded and returns the inserted datapoints |
| Trace.Stores.UpdateIndexColumn | app-server/src/routes/datasets.rs:275-276 | `update_index_column` is recorded with the new column and returns the stored record |
| Trace.Then | app-server/src/routes/datasets.rs:29 | one awaited call with `?` records at most that call, and a request that has failed stays failed |
| Trace.ThenKeepsConsistent | app-server/src/routes/datasets.rs:29-31 | one awaited call with `?` only extends the trace and keeps it consistent: every call but the last succeeded, and the request is still going iff all did |
| Trace.Steps | app-server/src/routes/datasets.rs:29-41 | a chain of awaited calls, each with `?`; `Trace.StepsRecordsPrefix` states what it records |
| Trace.StopsEarly | app-server/src/routes/datasets.rs:29-41 | once a call fails, none of the later calls of the handler is made |
| Trace.StepsAppend | app-server/src/routes/datasets.rs:29-41 | running two stretches of awaited calls one after the other is running their concatenation |
| Trace.StepsRecordsPrefix | app-server/src/routes/datasets.rs:29-41 | the calls made are a prefix of the planned calls; all but the last succeeded; the handler succeeds exactly when all planned calls were made and none failed |
| Trace.RunFromStart | app-server/src/routes/datasets.rs:29-41 | the same, for a handler that starts from no call |
| Filters.DatasetFilter | app-server/src/routes/datasets.rs:34-37 | the one-key `{datasource_id: dataset_id}` map; `Filters.FilterMatches` states what it matches (also built at :250-256) |
| Filters.IdFilter | app-server/src/routes/datasets.rs:141-144 | the one-key `{id: datapoint_id}` map; `Filters.FilterMatches` states what it matches (also built at :214) |
| Filters.ScopedFilter | app-server/src/routes/datasets.rs:187-190 | the two-key `{id, datasource_id}` map; `Filters.FilterMatches` states what it matches |
| Filters.FilterMatches | app-server/src/routes/datasets.rs:34-37 | `{datasource_id}` matches exactly the points of that dataset, `{id}` exactly the points of that datapoint, `{id, datasource_id}` exactly both |
| Filters.ScopedFilters | app-server/src/routes/datasets.rs:184-192 | one `{id, datasource_id}` filter per requested id, in request order |
| Filters.IdFilters | app-server/src/routes/datasets.rs:212-215 | one `{id}` filter per deleted id, in order |
| Filters.FilteredIds | app-server/src/routes/datasets.rs:184-192 | reading the `id` key back from a filter list gives the ids in order |
| Filters.ScopedFiltersRoundTrip | app-server/src/routes/datasets.rs:184-192 | the ids read back from the scoped filters are the requested ids |
| Filters.IdFiltersRoundTrip | app-server/src/routes/datasets.rs:212-215 | the ids read back from the `{id}` filters are the deleted ids |
| Filters.DatasetFilterSelects | app-server/src/routes/datasets.rs:31-39 | a deletion with `[{datasource_id: d}]` removes a point if and only if it belongs to dataset d |
| Filters.ScopedFiltersSelect | app-server/src/routes/datasets.rs:181-194 | the scoped filters remove a point if and only if its id is requested and it belongs to the dataset |
| Filters.IdFiltersSelect | app-server/src/routes/datasets.rs:209-217 | the `{id}` filters remove a point if and only if its id is listed, in any dataset |
| Batching.Chunks | app-server/src/routes/datasets.rs:259 | `datapoints.chunks(BATCH_SIZE)`; `Batching.ChunksFlatten` and `Batching.ChunksShape` state its behaviour |
| Batching.ChunksFlatten | app-server/src/routes/datasets.rs:259 | concatenating the chunks gives back the datapoints, in order |
| Batching.ChunksShape | app-server/src/routes/datasets.rs:259 | there are ceil(n / size) chunks; each is non-empty and at most `size` long, and all but the last are exactly `size` long |
| Batching.ChunkCount | app-server/src/routes/datasets.rs:19 | with BATCH_SIZE = 50 there are exactly ceil(n / 50) chunks |
| Batching.ChunksOf137 | app-server/src/routes/datasets.rs:19 | 137 datapoints go out as chunks of 50, 50 and 37, which together are the datapoints |
| Batching.ChunksStep | app-server/src/routes/datasets.rs:259 | the chunks from a position on are the next chunk followed by the chunks after it |
| Batching.FlattenAppend | app-server/src/routes/datasets.rs:259 | flattening distributes over concatenation |
| Batching.IndexCalls | app-server/src/routes/datasets.rs:259-273 | one index call per chunk when a column is set; no call otherwise |
| Batching.IndexCallsAt | app-server/src/routes/datasets.rs:259-273 | the i-th index call sends the i-th chunk, to the project's namespace, with the column |
| Batching.IndexCallsAppend | app-server/src/routes/datasets.rs:259-273 | the index calls for two runs of chunks are the calls of the first followed by those of the second |
| Batching.IndexedBatchesOfIndexCalls | app-server/src/routes/datasets.rs:259-273 | the points sent by the index calls for some chunks are exactly those chunks, or nothing without a column |
| Batching.IndexedBatchesAppend | app-server/src/routes/datasets.rs:259-273 | the points a trace sends, call by call, distribute over concatenation of traces |
| Batching.IndexedBatchesPrefix | app-server/src/routes/datasets.rs:259-273 | a trace cut short sends a prefix of the full trace's chunks |
| Batching.NoIndexedBatches | app-server/src/routes/datasets.rs:245-258 | a trace without index calls sends no points |
| Datasets.StraightLine | app-server/src/routes/datasets.rs:29-41 | a handler made of awaited calls answers its body exactly when every call was made and succeeded, and a store error otherwise, the last call made being the one that failed |
| Datasets.DeleteDatasetSpec | app-server/src/routes/datasets.rs:29-41 | the relational delete, then the `[{datasource_id}]` deletion, run with `?`; `Datasets.DeleteDatasetOrder` states its properties |
| Datasets.DeleteDataset | app-server/src/routes/datasets.rs:21-42 | the method makes the same calls, and gives the same answer, as `DeleteDatasetSpec` |
| Datasets.DeleteDatasetOrder | app-server/src/routes/datasets.rs:29-41 | the relational delete comes first; the embedding deletion follows only after it succeeded and removes exactly the dataset's points; success iff both calls succeed |
| Datasets.UploadIndexing | app-server/src/routes/datasets.rs:68-76 | one index call with the inserted datapoints and the dataset's column when the dataset is indexed, none otherwise |
| Datasets.UploadPlan | app-server/src/routes/datasets.rs:57-76 | read, lookup, insert, then `UploadIndexing`; `Datasets.UploadCalls` states when it runs |
| Datasets.UploadSpec | app-server/src/routes/datasets.rs:57-61 | the file is read first; "Dataset not found" iff the read and the lookup succeed and find nothing, and then no further call is made |
| Datasets.UploadCalls | app-server/src/routes/datasets.rs:57-78 | when the read and the lookup succeed and find the dataset, the handler runs read, lookup, insert, then the indexing of the inserted datapoints, with `?` semantics; otherwise it makes at most those first two calls and does not succeed |
| Datasets.UploadDatapointFile | app-server/src/routes/datasets.rs:47-79 | the method makes the same calls, and gives the same answer, as `UploadSpec` |
| Datasets.UploadIndexesInserted | app-server/src/routes/datasets.rs:63-78 | the insert comes after the lookup; exactly the inserted datapoints are indexed once, with the dataset's column, only if the dataset is indexed and after the insert succeeded; success answers the inserted list |
| Datasets.ParseAll | app-server/src/routes/datasets.rs:99-102 | every datapoint kept is the parse of some input value, every successful parse is kept, and none is invented |
| Datasets.ParseAllAppend | app-server/src/routes/datasets.rs:99-102 | parsing keeps the input order |
| Datasets.ParseAllDropsNothing | app-server/src/routes/datasets.rs:99-102 | the output is as long as the input iff every value parses |
| Datasets.CreateSpec | app-server/src/routes/datasets.rs:99-112 | the parsed datapoints go out in one index call with the request's column, run with `?`; `Datasets.CreateIndexesParsed` states its properties |
| Datasets.CreateDatapointEmbeddings | app-server/src/routes/datasets.rs:88-113 | the method makes the same calls, and gives the same answer, as `CreateSpec` |
| Datasets.CreateIndexesParsed | app-server/src/routes/datasets.rs:99-112 | the only call indexes the parsed datapoints with the request's column, even when none parsed; success iff that call succeeds; success answers the parsed datapoints |
| Datasets.UpdateSpec | app-server/src/routes/datasets.rs:138-164 | the `{id}` deletion, then one index call on the rebuilt datapoint, run with `?`; `Datasets.UpdateDeletesThenIndexes` states its properties |
| Datasets.UpdateDatapointEmbeddings | app-server/src/routes/datasets.rs:129-165 | the method makes the same calls, and gives the same answer, as `UpdateSpec` |
| Datasets.UpdateDeletesThenIndexes | app-server/src/routes/datasets.rs:138-164 | one `{id}` deletion comes first; the only index call follows it, after it succeeded, on one datapoint with the request's column; the answered datapoint has the path's ids and the request's data, target and metadata |
| Datasets.DeleteDatapointsSpec | app-server/src/routes/datasets.rs:181-196 | one deletion with the scoped filters of the requested ids, run with `?`; `Datasets.DeleteDatapointsFilters` states its properties |
| Datasets.DeleteDatapointEmbeddings | app-server/src/routes/datasets.rs:172-197 | the method makes the same calls, and gives the same answer, as `DeleteDatapointsSpec` |
| Datasets.DeleteDatapointsFilters | app-server/src/routes/datasets.rs:181-196 | one deletion call with one `{id, datasource_id}` filter per requested id, in order; it removes exactly the requested datapoints of the dataset; success iff it succeeds |
| Datasets.DeleteAllSpec | app-server/src/routes/datasets.rs:207-219 | the relational delete, then a deletion with one `{id}` filter per returned id, run with `?`; `Datasets.DeleteAllFilters` states its properties |
| Datasets.DeleteAllDatapoints | app-server/src/routes/datasets.rs:199-220 | the method makes the same calls, and gives the same answer, as `DeleteAllSpec` |
| Datasets.DeleteAllFilters | app-server/src/routes/datasets.rs:207-219 | the relational delete comes first; the embedding deletion follows only after it succeeded, with one `{id}` filter per returned id, in order, and removes exactly those ids' points |
| Datasets.OldEmbeddingsDeletion | app-server/src/routes/datasets.rs:247-258 | the `[{datasource_id}]` deletion when the dataset was indexed, nothing otherwise |
| Datasets.ReindexPlan | app-server/src/routes/datasets.rs:237-276 | lookup, load, `OldEmbeddingsDeletion`, the index calls of the chunks, commit; `Datasets.ReindexPlanEnds` and `Datasets.ReindexPlanKinds` state its shape |
| Datasets.IndexDatasetSpec | app-server/src/routes/datasets.rs:237-243 | the lookup is the first call; "Dataset not found" iff it succeeds and finds nothing, and then it is the only call; an unchanged column answers the stored dataset after the lookup alone; a success means no call failed |
| Datasets.IndexChunks | app-server/src/routes/datasets.rs:259-273 | the loop makes the index calls of the chunks in order and stops at the first failure, as the planned calls would |
| Datasets.LoadAndDeleteOld | app-server/src/routes/datasets.rs:245-258 | after the lookup, the method loads the datapoints and answers them, then deletes the old embeddings with `[{datasource_id}]` iff the dataset was indexed, with `?` semantics |
| Datasets.Reindex | app-server/src/routes/datasets.rs:245-278 | after the lookup, the method makes the calls of the re-index plan (load, old-embedding deletion, chunk indexing, commit) with `?` semantics, and answers the committed record iff the plan ran without failure, an error otherwise |
| Datasets.IndexDataset | app-server/src/routes/datasets.rs:228-279 | the method makes the same calls, and gives the same answer, as `IndexDatasetSpec` |
| Datasets.ReindexRunsPlan | app-server/src/routes/datasets.rs:245-278 | when the lookup finds the dataset and the column changes, the handler runs the re-index plan and answers the committed record iff the plan ran without failure |
| Datasets.IndexDatasetCalls | app-server/src/routes/datasets.rs:237-278 | the handler makes the lookup alone, or a prefix of the re-index plan, and then answers the committed record iff the whole plan ran without failure |
| Datasets.ReindexPlanEnds | app-server/src/routes/datasets.rs:237-276 | the re-index plan starts with the lookup and the load, then the `[{datasource_id}]` deletion iff the dataset was indexed, and ends with the commit of the new column; in between there is one index call per chunk when the new column is set, none otherwise |
| Datasets.ReindexPlanKinds | app-server/src/routes/datasets.rs:247-276 | in the re-index plan the only deletion is the old-embedding one, right after the load; every index call comes after it and carries the new column, which is set; the only commit is the last call |
| Datasets.ReindexDeletesOldFirst | app-server/src/routes/datasets.rs:247-273 | the old embeddings are deleted with `[{datasource_id}]` only if the dataset was indexed, and before every index call; an indexed dataset always has them deleted once its datapoints are loaded |
| Datasets.ReindexPlanBatches | app-server/src/routes/datasets.rs:259-273 | the whole plan sends exactly the chunks of the datapoints, or nothing without a column |
| Datasets.ReindexBatches | app-server/src/routes/datasets.rs:259-273 | without a column no index call is made; index calls carry the new column; the points sent are a prefix of the chunks; on success they are all ceil(n / 50) chunks and concatenate to the datapoints |
| Datasets.ReindexCommitsLast | app-server/src/routes/datasets.rs:275-278 | whenever `update_index_column` is called, it is with the new column, as the last call, and after every earlier call succeeded |
| Datasets.ReindexCommitDecides | app-server/src/routes/datasets.rs:237-278 | a handler that makes more than the lookup succeeds iff its last call is the commit and it succeeds, and then answers the committed record; a success after the lookup alone means the column was unchanged and answers the stored dataset |

## Left out

- HTTP: actix routing, path and body extraction, and the building of HTTP responses. A handler's answer is `Ok(body)`, `NotFound` (the 404 "Dataset not found") or `Err` (an error propagated by `?`).
- Multipart parsing: `read_multipart_file` is the call `ReadUploadedFile`. It can fail, and the file it returns is not modelled. The parsing of the file by `insert_datapoints_from_file` is not modelled either; the datapoints it inserts are an input (`Replies.inserted`).
- Store internals: `delete_embeddings`, `index_new_points`, the SQL behind the relational calls, and the embedding computation are not modelled. Their answers, and which of them fail, are inputs (`Replies`). `app-server/src/db/mod.rs` is not part of this model. What `index_new_points` writes is not modelled.
- Datasets.ParseAll: `Datapoint::try_from_raw_value` is a function parameter `parse`, since its rules are not part of this model.
- Datasets.Reindex: the `into()` conversion from the stored full datapoint to the indexed datapoint is taken as the identity.
- Datasets.IndexDataset: the record answered after the commit is whatever `update_index_column` returns (`Replies.updated`). The model does not state that its `indexed_on` equals the new column, since the store is not modelled.
- Identifiers: they are natural numbers compared by equality. Their conversion to strings in filters and namespaces is not modelled.
- Concurrency: each request runs alone against fixed store answers. Two interleaved requests are not modelled, nor are their races (for example, two re-indexes of one dataset).
- Partial success inside one store call (a batch of which only some points were written) is not modelled. A call either succeeds or returns an error.
- The sandbox server and the frontend API routes are not part of this model.
- Filters.Selects: which embedding points a deletion removes is modelled over the two payload tags `id` and `datasource_id`. The rule that a deletion removes the points matching at least one filter of its list is an assumption about the vector store, since `delete_embeddings` is not part of this model. Under it, an empty filter list removes nothing. Two inputs send one: `delete_datapoint_embeddings` with no ids (`app-server/src/routes/datasets.rs:184-192`), and `delete_all_datapoints` when the relational store reports no deleted ids (`app-server/src/routes/datasets.rs:212-215`). The "removes exactly" clauses of `Filters.ScopedFiltersSelect`, `Filters.IdFiltersSelect`, `Datasets.DeleteDatapointsFilters` and `Datasets.DeleteAllFilters` hold under this reading only.
- Two behaviours of the code worth noting, both modelled as written:
  - `index_dataset` loads the datapoints right after the lookup, whatever the new column, even when no index call follows (`app-server/src/routes/datasets.rs:245`).
  - Deleting all datapoints removes embeddings only by the `{id}` of each id the relational store reports deleted (`app-server/src/routes/datasets.rs:209-217`). A point tagged with the dataset whose id is not reported stays. `Datasets.DeleteAllFilters` states which points go.
  - A re-index that fails part way leaves the stores apart. Take a dataset indexed on one column and re-indexed on another. The load and the old-embedding deletion can succeed and a later batch fail (`app-server/src/routes/datasets.rs:248-273`). The handler then answers an error before `update_index_column` (`app-server/src/routes/datasets.rs:275-276`): `indexed_on` keeps the old column while the dataset's old points are gone, and only the batches before the failure are indexed. `Datasets.ReindexCommitsLast` and `Datasets.ReindexBatches` state this: the commit is made only after every earlier call succeeded, and the batches sent are a prefix of the chunks.
  - Creating and updating datapoint embeddings never read the dataset (`app-server/src/routes/datasets.rs:88-113`, `app-server/src/routes/datasets.rs:129-165`). They index with the column named in the request, so points can be written for a dataset whose `indexed_on` is unset or names another column. `Datasets.CreateIndexesParsed` and `Datasets.UpdateDeletesThenIndexes` state this: the only index call carries the request's column, and no lookup is made.

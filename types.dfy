/**
 * Entities of the dataset routes: datapoints, datasets, the filters sent to the
 * vector index, the calls a handler makes to the relational store and to the
 * vector index, and what a handler answers.
 */
module Types {

  datatype Option<+T> = None | Some(value: T)

  /** Identifiers (UUIDs in the service) are opaque; only their equality matters. */
  type Uuid = nat

  /** The name of a datapoint field that is embedded ("indexed_on", "index_column"). */
  type Column = string

  /** An untyped structured value, as received in a request body. */
  datatype Json =
    | Null
    | Bool(b: bool)
    | Number(n: int)
    | Text(s: string)
    | Array(items: seq<Json>)
    | Object(fields: map<string, Json>)

  datatype Datapoint = Datapoint(
    id: Uuid,
    datasetId: Uuid,
    data: Json,
    target: Option<Json>,
    metadata: map<string, Json>)

  /** `indexedOn == None` means that no embeddings exist for the dataset. */
  datatype Dataset = Dataset(id: Uuid, projectId: Uuid, indexedOn: Option<Column>)

  /** One exact-match filter of an embedding deletion: payload key to required value. */
  type Filter = map<string, Uuid>

  /**
   * One awaited call of a handler into one of the two stores. The namespace of the
   * vector index is the project id.
   */
  datatype Call =
    | ReadUploadedFile
    | DbGetDataset(projectId: Uuid, datasetId: Uuid)
    | DbGetFullDatapoints(datasetId: Uuid)
    | DbDeleteDataset(datasetId: Uuid)
    | DbDeleteAll(datasetId: Uuid)
    | DbInsertFromFile(datasetId: Uuid)
    | DbUpdateIndexColumn(datasetId: Uuid, column: Option<Column>)
    | DeleteEmbeddings(ns: Uuid, filters: seq<Filter>)
    | IndexNewPoints(ns: Uuid, points: seq<Datapoint>, column: Option<Column>)

  /** What a handler answers: a body, "Dataset not found", or a propagated store error. */
  datatype Response<+T> = Ok(value: T) | NotFound | Err

  /** A handler's answer together with every store call it made, in order. */
  datatype Outcome<+T> = Outcome(resp: Response<T>, calls: seq<Call>)

  /**
   * What the stores answer during one request. `failing` holds the positions
   * (0 for the request's first call, 1 for its second, ...) of the calls that
   * return an error; every other call succeeds and, where it returns data,
   * returns the matching field.
   */
  datatype Replies = Replies(
    failing: set<nat>,
    dataset: Option<Dataset>,       // get_dataset
    datapoints: seq<Datapoint>,     // get_full_datapoints
    deletedIds: seq<Uuid>,          // delete_all_datapoints
    inserted: seq<Datapoint>,       // insert_datapoints_from_file
    updated: Dataset)               // update_index_column
}

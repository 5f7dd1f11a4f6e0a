/**
 * The dataset route handlers, as sequences of awaited calls into the relational
 * store and the vector index. Each handler is a method that makes its calls on a
 * `Stores` and answers like the route does; each is proved equal to a
 * specification function (`...Spec`) that gives the same answer and call trace
 * from a plan of calls run with `?` semantics, and the lemmas below state what
 * the routes promise about those traces.
 */
module Datasets {
  import opened Types
  import opened Trace
  import opened Filters
  import opened Batching

  /**
   * A handler that makes the calls of `plan` in order, stopping at the first that
   * fails, and answers `body` if none failed.
   */
  function StraightLine<T>(w: Replies, plan: seq<Call>, body: T): (o: Outcome<T>)
    ensures |o.calls| <= |plan| && o.calls == plan[..|o.calls|]
    ensures forall i :: 0 <= i < |o.calls| - 1 ==> !Fails(w, i)
    ensures o.resp.Ok? <==> o.calls == plan && forall i :: 0 <= i < |plan| ==> !Fails(w, i)
    ensures o.resp.Ok? ==> o.resp.value == body
    ensures !o.resp.Ok? ==> o.resp == Err && |o.calls| > 0 && Fails(w, |o.calls| - 1)
  {
    RunFromStart(w, plan);
    var r := Steps(w, Start(), plan);
    Outcome(if r.ok then Ok(body) else Err, r.trace)
  }

  // ---------------------------------------------------------------- delete_dataset

  function DeleteDatasetSpec(w: Replies, projectId: Uuid, datasetId: Uuid): Outcome<()> {
    StraightLine(w, [DbDeleteDataset(datasetId), DeleteEmbeddings(projectId, [DatasetFilter(datasetId)])], ())
  }

  method DeleteDataset(w: Replies, projectId: Uuid, datasetId: Uuid)
    returns (resp: Response<()>, calls: seq<Call>)
    ensures Outcome(resp, calls) == DeleteDatasetSpec(w, projectId, datasetId)
  {
    var s := new Stores(w);
    ghost var plan := [DbDeleteDataset(datasetId), DeleteEmbeddings(projectId, [DatasetFilter(datasetId)])];
    var ok := s.Send(DbDeleteDataset(datasetId));
    StepsSnoc(w, Start(), [], plan[0]);
    assert [] + [plan[0]] == plan[..1];
    if !ok {
      StopsEarly(w, Start(), plan[..1], plan[1..]);
      assert plan[..1] + plan[1..] == plan;
      return Err, s.trace;
    }
    ok := s.Send(DeleteEmbeddings(projectId, [DatasetFilter(datasetId)]));
    StepsSnoc(w, Start(), plan[..1], plan[1]);
    assert plan[..1] + [plan[1]] == plan;
    if !ok {
      return Err, s.trace;
    }
    return Ok(()), s.trace;
  }

  /**
   * The relational delete comes first; the embedding deletion follows only once it
   * has succeeded, and removes every point of the dataset and nothing else.
   */
  lemma {:induction false} DeleteDatasetOrder(w: Replies, projectId: Uuid, datasetId: Uuid, t: Tag)
    ensures var o := DeleteDatasetSpec(w, projectId, datasetId);
      && o.calls[0] == DbDeleteDataset(datasetId)
      && (forall i :: 0 <= i < |o.calls| && o.calls[i].DeleteEmbeddings? ==>
            i == 1 && !Fails(w, 0) && o.calls[i] == DeleteEmbeddings(projectId, [DatasetFilter(datasetId)]))
      && (|o.calls| == 2 ==> (Selects(o.calls[1].filters, t) <==> t.datasourceId == datasetId))
      && (o.resp.Ok? <==> !Fails(w, 0) && !Fails(w, 1))
  {
    var o := DeleteDatasetSpec(w, projectId, datasetId);
    DatasetFilterSelects(datasetId, t);
    if !Fails(w, 0) && !Fails(w, 1) {
      assert forall i :: 0 <= i < 2 ==> !Fails(w, i);
    }
  }

  // ---------------------------------------------------------------- upload_datapoint_file

  /** The index call after an upload: one, with the dataset's column, only if it is indexed. */
  function UploadIndexing(projectId: Uuid, inserted: seq<Datapoint>,
                          indexedOn: Option<Column>): seq<Call> {
    if indexedOn.Some? then [IndexNewPoints(projectId, inserted, indexedOn)] else []
  }

  /** The calls of an upload into an existing dataset, when none fails. */
  function UploadPlan(projectId: Uuid, datasetId: Uuid, inserted: seq<Datapoint>,
                      indexedOn: Option<Column>): seq<Call> {
    [ReadUploadedFile, DbGetDataset(projectId, datasetId), DbInsertFromFile(datasetId)]
      + UploadIndexing(projectId, inserted, indexedOn)
  }

  function UploadSpec(w: Replies, projectId: Uuid, datasetId: Uuid): (o: Outcome<seq<Datapoint>>)
    ensures 0 < |o.calls| && o.calls[0] == ReadUploadedFile
    ensures o.resp == NotFound <==> !Fails(w, 0) && !Fails(w, 1) && w.dataset.None?
    ensures o.resp == NotFound ==> o.calls == [ReadUploadedFile, DbGetDataset(projectId, datasetId)]
  {
    var head := [ReadUploadedFile, DbGetDataset(projectId, datasetId)];
    RunFromStart(w, head);
    var looked := Steps(w, Start(), head);
    if !looked.ok then Outcome(Err, looked.trace)
    else match w.dataset
      case None => Outcome(NotFound, looked.trace)
      case Some(dataset) => StraightLine(w, UploadPlan(projectId, datasetId, w.inserted, dataset.indexedOn), w.inserted)
  }

  method UploadDatapointFile(w: Replies, projectId: Uuid, datasetId: Uuid)
    returns (resp: Response<seq<Datapoint>>, calls: seq<Call>)
    ensures Outcome(resp, calls) == UploadSpec(w, projectId, datasetId)
  {
    var s := new Stores(w);
    ghost var head := [ReadUploadedFile, DbGetDataset(projectId, datasetId)];
    var ok := s.Send(ReadUploadedFile);
    StepsSnoc(w, Start(), [], ReadUploadedFile);
    assert [] + [ReadUploadedFile] == head[..1];
    if !ok {
      StopsEarly(w, Start(), head[..1], head[1..]);
      assert head[..1] + head[1..] == head;
      return Err, s.trace;
    }
    var found;
    ok, found := s.GetDataset(projectId, datasetId);
    StepsSnoc(w, Start(), head[..1], head[1]);
    assert head[..1] + [head[1]] == head;
    if !ok {
      return Err, s.trace;
    }
    if found.None? {
      return NotFound, s.trace;
    }
    var indexedOn := found.value.indexedOn;
    ghost var plan := UploadPlan(projectId, datasetId, w.inserted, indexedOn);
    ghost var done := head + [DbInsertFromFile(datasetId)];
    assert plan == done + UploadIndexing(projectId, w.inserted, indexedOn);
    var datapoints;
    ok, datapoints := s.InsertDatapointsFromFile(datasetId);
    StepsSnoc(w, Start(), head, DbInsertFromFile(datasetId));
    if !ok {
      StopsEarly(w, Start(), done, UploadIndexing(projectId, w.inserted, indexedOn));
      return Err, s.trace;
    }
    if indexedOn.Some? {
      ok := s.Send(IndexNewPoints(projectId, datapoints, indexedOn));
      StepsSnoc(w, Start(), done, IndexNewPoints(projectId, datapoints, indexedOn));
      if !ok {
        return Err, s.trace;
      }
    } else {
      assert plan == done;
    }
    return Ok(datapoints), s.trace;
  }

  /**
   * The calls of `upload_datapoint_file`: part of the read and the lookup when one of
   * them fails or finds no dataset; otherwise the upload plan, run with `?`.
   */
  lemma {:induction false} UploadCalls(w: Replies, projectId: Uuid, datasetId: Uuid)
    ensures var o := UploadSpec(w, projectId, datasetId);
      if !Fails(w, 0) && !Fails(w, 1) && w.dataset.Some? then
        o == StraightLine(w, UploadPlan(projectId, datasetId, w.inserted, w.dataset.value.indexedOn), w.inserted)
      else
        && |o.calls| <= 2
        && o.calls == [ReadUploadedFile, DbGetDataset(projectId, datasetId)][..|o.calls|]
        && !o.resp.Ok?
  {
    var head := [ReadUploadedFile, DbGetDataset(projectId, datasetId)];
    RunFromStart(w, head);
    if !Fails(w, 0) && !Fails(w, 1) {
      assert forall i :: 0 <= i < |head| ==> !Fails(w, i);
    }
  }

  /**
   * After the file is read and the dataset found, the datapoints are inserted; then,
   * only if the dataset is indexed, exactly the inserted datapoints are indexed once
   * with the dataset's column. A successful upload answers the inserted list.
   */
  lemma {:induction false} UploadIndexesInserted(w: Replies, projectId: Uuid, datasetId: Uuid)
    ensures var o := UploadSpec(w, projectId, datasetId);
      && (o.resp.Ok? ==>
            && w.dataset.Some?
            && o.resp.value == w.inserted
            && o.calls == [ReadUploadedFile, DbGetDataset(projectId, datasetId), DbInsertFromFile(datasetId)]
                          + UploadIndexing(projectId, w.inserted, w.dataset.value.indexedOn))
      && (forall i :: 0 <= i < |o.calls| && o.calls[i].IndexNewPoints? ==>
            && i == 3 && o.calls[2] == DbInsertFromFile(datasetId) && !Fails(w, 2)
            && w.dataset.Some? && w.dataset.value.indexedOn.Some?
            && o.calls[i] == IndexNewPoints(projectId, w.inserted, w.dataset.value.indexedOn))
      && (forall i :: 0 <= i < |o.calls| && (o.calls[i].DbInsertFromFile? || o.calls[i].IndexNewPoints?) ==>
            w.dataset.Some? && !Fails(w, 1))
  {
    var o := UploadSpec(w, projectId, datasetId);
    UploadCalls(w, projectId, datasetId);
    if !Fails(w, 0) && !Fails(w, 1) && w.dataset.Some? {
      var plan := UploadPlan(projectId, datasetId, w.inserted, w.dataset.value.indexedOn);
      forall i | 0 <= i < |o.calls| && o.calls[i].IndexNewPoints?
        ensures i == 3 && o.calls[2] == DbInsertFromFile(datasetId) && !Fails(w, 2)
        ensures o.calls[i] == IndexNewPoints(projectId, w.inserted, w.dataset.value.indexedOn)
        ensures w.dataset.value.indexedOn.Some?
      {
        assert o.calls[i] == plan[i];
        assert o.calls[2] == plan[2];
      }
    } else {
      forall i | 0 <= i < |o.calls|
        ensures !o.calls[i].DbInsertFromFile? && !o.calls[i].IndexNewPoints?
      {
        assert o.calls[i] == [ReadUploadedFile, DbGetDataset(projectId, datasetId)][i];
      }
    }
  }

  // ---------------------------------------------------------------- create_datapoint_embeddings

  /**
   * `filter_map` of the raw values through `parse` (the datapoint parser, which is
   * not part of this model): the successful parses, in input order.
   */
  function ParseAll(datasetId: Uuid, raw: seq<Json>,
                    parse: (Uuid, Json) -> Option<Datapoint>): (dps: seq<Datapoint>)
    ensures |dps| <= |raw|
    ensures forall j :: 0 <= j < |dps| ==> exists i :: 0 <= i < |raw| && parse(datasetId, raw[i]) == Some(dps[j])
    ensures forall i :: 0 <= i < |raw| && parse(datasetId, raw[i]).Some? ==> parse(datasetId, raw[i]).value in dps
  {
    if raw == [] then []
    else
      var rest := ParseAll(datasetId, raw[1..], parse);
      assert forall j :: 0 <= j < |rest| ==>
               exists i :: 0 <= i < |raw| && parse(datasetId, raw[i]) == Some(rest[j]) by {
        forall j | 0 <= j < |rest| ensures exists i :: 0 <= i < |raw| && parse(datasetId, raw[i]) == Some(rest[j]) {
          var i :| 0 <= i < |raw[1..]| && parse(datasetId, raw[1..][i]) == Some(rest[j]);
          assert raw[i + 1] == raw[1..][i];
        }
      }
      assert forall i :: 1 <= i < |raw| ==> raw[i] == raw[1..][i - 1];
      match parse(datasetId, raw[0])
      case Some(dp) => [dp] + rest
      case None => rest
  }

  /** Parsing keeps the input order: the parse of a concatenation is the concatenation of the parses. */
  lemma {:induction false} ParseAllAppend(datasetId: Uuid, a: seq<Json>, b: seq<Json>,
                                          parse: (Uuid, Json) -> Option<Datapoint>)
    ensures ParseAll(datasetId, a + b, parse) == ParseAll(datasetId, a, parse) + ParseAll(datasetId, b, parse)
  {
    if a == [] {
      assert a + b == b;
    } else {
      assert (a + b)[0] == a[0];
      assert (a + b)[1..] == a[1..] + b;
      ParseAllAppend(datasetId, a[1..], b, parse);
    }
  }

  /** No value is dropped exactly when every value parses. */
  lemma {:induction false} ParseAllDropsNothing(datasetId: Uuid, raw: seq<Json>,
                                                parse: (Uuid, Json) -> Option<Datapoint>)
    ensures |ParseAll(datasetId, raw, parse)| == |raw|
        <==> forall i :: 0 <= i < |raw| ==> parse(datasetId, raw[i]).Some?
  {
    if raw != [] {
      ParseAllDropsNothing(datasetId, raw[1..], parse);
      assert forall i :: 1 <= i < |raw| ==> raw[i] == raw[1..][i - 1];
      if parse(datasetId, raw[0]).None? {
        assert |ParseAll(datasetId, raw, parse)| <= |raw[1..]|;
      }
    }
  }

  function CreateSpec(w: Replies, projectId: Uuid, datasetId: Uuid, raw: seq<Json>,
                      indexedOn: Column,
                      parse: (Uuid, Json) -> Option<Datapoint>): Outcome<seq<Datapoint>>
  {
    var datapoints := ParseAll(datasetId, raw, parse);
    StraightLine(w, [IndexNewPoints(projectId, datapoints, Some(indexedOn))], datapoints)
  }

  method CreateDatapointEmbeddings(w: Replies, projectId: Uuid, datasetId: Uuid, raw: seq<Json>,
                                   indexedOn: Column, parse: (Uuid, Json) -> Option<Datapoint>)
    returns (resp: Response<seq<Datapoint>>, calls: seq<Call>)
    ensures Outcome(resp, calls) == CreateSpec(w, projectId, datasetId, raw, indexedOn, parse)
  {
    var s := new Stores(w);
    var datapoints := ParseAll(datasetId, raw, parse);
    var ok := s.Send(IndexNewPoints(projectId, datapoints, Some(indexedOn)));
    StepsSnoc(w, Start(), [], IndexNewPoints(projectId, datapoints, Some(indexedOn)));
    ghost var call := IndexNewPoints(projectId, datapoints, Some(indexedOn));
    assert [] + [call] == [call];
    if !ok {
      return Err, s.trace;
    }
    return Ok(datapoints), s.trace;
  }

  /**
   * The only store call is one index call, with the request's column, on the parsed
   * datapoints (even when none parsed); a success answers exactly those datapoints.
   */
  lemma {:induction false} CreateIndexesParsed(w: Replies, projectId: Uuid, datasetId: Uuid,
                                               raw: seq<Json>, indexedOn: Column,
                                               parse: (Uuid, Json) -> Option<Datapoint>)
    ensures var o := CreateSpec(w, projectId, datasetId, raw, indexedOn, parse);
      && o.calls == [IndexNewPoints(projectId, ParseAll(datasetId, raw, parse), Some(indexedOn))]
      && (o.resp.Ok? <==> !Fails(w, 0))
      && (o.resp.Ok? ==> o.resp.value == ParseAll(datasetId, raw, parse))
  {
    var o := CreateSpec(w, projectId, datasetId, raw, indexedOn, parse);
    if !Fails(w, 0) {
      assert forall i :: 0 <= i < 1 ==> !Fails(w, i);
    }
  }

  // ---------------------------------------------------------------- update_datapoint_embeddings

  /** The body of an update request. */
  datatype UpdateRequest =
    UpdateRequest(data: Json, target: Option<Json>, metadata: map<string, Json>, indexedOn: Column)

  function UpdateSpec(w: Replies, projectId: Uuid, datasetId: Uuid, datapointId: Uuid,
                      req: UpdateRequest): Outcome<Datapoint> {
    var updated := Datapoint(datapointId, datasetId, req.data, req.target, req.metadata);
    StraightLine(w, [DeleteEmbeddings(projectId, [IdFilter(datapointId)]),
                     IndexNewPoints(projectId, [updated], Some(req.indexedOn))], updated)
  }

  method UpdateDatapointEmbeddings(w: Replies, projectId: Uuid, datasetId: Uuid, datapointId: Uuid,
                                   req: UpdateRequest)
    returns (resp: Response<Datapoint>, calls: seq<Call>)
    ensures Outcome(resp, calls) == UpdateSpec(w, projectId, datasetId, datapointId, req)
  {
    var s := new Stores(w);
    var updated := Datapoint(datapointId, datasetId, req.data, req.target, req.metadata);
    ghost var plan := [DeleteEmbeddings(projectId, [IdFilter(datapointId)]),
                       IndexNewPoints(projectId, [updated], Some(req.indexedOn))];
    var ok := s.Send(DeleteEmbeddings(projectId, [IdFilter(datapointId)]));
    StepsSnoc(w, Start(), [], plan[0]);
    assert [] + [plan[0]] == plan[..1];
    if !ok {
      StopsEarly(w, Start(), plan[..1], plan[1..]);
      assert plan[..1] + plan[1..] == plan;
      return Err, s.trace;
    }
    ok := s.Send(IndexNewPoints(projectId, [updated], Some(req.indexedOn)));
    StepsSnoc(w, Start(), plan[..1], plan[1]);
    assert plan[..1] + [plan[1]] == plan;
    if !ok {
      return Err, s.trace;
    }
    return Ok(updated), s.trace;
  }

  /**
   * Exactly one `{id}` deletion precedes exactly one index call on the one rebuilt
   * datapoint, which carries the path's ids and the request's content.
   */
  lemma {:induction false} UpdateDeletesThenIndexes(w: Replies, projectId: Uuid, datasetId: Uuid,
                                                    datapointId: Uuid, req: UpdateRequest)
    ensures var o := UpdateSpec(w, projectId, datasetId, datapointId, req);
      && o.calls[0] == DeleteEmbeddings(projectId, [IdFilter(datapointId)])
      && (forall i :: 0 <= i < |o.calls| && o.calls[i].IndexNewPoints? ==>
            i == 1 && !Fails(w, 0) && |o.calls[i].points| == 1 && o.calls[i].column == Some(req.indexedOn))
      && (o.resp.Ok? ==>
            && o.calls == [DeleteEmbeddings(projectId, [IdFilter(datapointId)]),
                           IndexNewPoints(projectId, [o.resp.value], Some(req.indexedOn))]
            && o.resp.value.id == datapointId && o.resp.value.datasetId == datasetId
            && o.resp.value.data == req.data && o.resp.value.target == req.target
            && o.resp.value.metadata == req.metadata)
  {
  }

  // ---------------------------------------------------------------- delete_datapoint_embeddings

  function DeleteDatapointsSpec(w: Replies, projectId: Uuid, datasetId: Uuid,
                                ids: seq<Uuid>): Outcome<()> {
    StraightLine(w, [DeleteEmbeddings(projectId, ScopedFilters(ids, datasetId))], ())
  }

  method DeleteDatapointEmbeddings(w: Replies, projectId: Uuid, datasetId: Uuid, ids: seq<Uuid>)
    returns (resp: Response<()>, calls: seq<Call>)
    ensures Outcome(resp, calls) == DeleteDatapointsSpec(w, projectId, datasetId, ids)
  {
    var s := new Stores(w);
    var ok := s.Send(DeleteEmbeddings(projectId, ScopedFilters(ids, datasetId)));
    StepsSnoc(w, Start(), [], DeleteEmbeddings(projectId, ScopedFilters(ids, datasetId)));
    ghost var call := DeleteEmbeddings(projectId, ScopedFilters(ids, datasetId));
    assert [] + [call] == [call];
    if !ok {
      return Err, s.trace;
    }
    return Ok(()), s.trace;
  }

  /**
   * One deletion call, with one `{id, datasource_id}` filter per requested id in
   * request order, which removes exactly the requested datapoints of the dataset.
   */
  lemma {:induction false} DeleteDatapointsFilters(w: Replies, projectId: Uuid, datasetId: Uuid,
                                                   ids: seq<Uuid>, t: Tag)
    ensures var o := DeleteDatapointsSpec(w, projectId, datasetId, ids);
      && o.calls == [DeleteEmbeddings(projectId, o.calls[0].filters)]
      && |o.calls[0].filters| == |ids|
      && (forall i :: 0 <= i < |ids| ==> o.calls[0].filters[i] == ScopedFilter(ids[i], datasetId))
      && (Selects(o.calls[0].filters, t) <==> t.id in ids && t.datasourceId == datasetId)
      && (o.resp.Ok? <==> !Fails(w, 0))
  {
    var o := DeleteDatapointsSpec(w, projectId, datasetId, ids);
    ScopedFiltersSelect(ids, datasetId, t);
    if !Fails(w, 0) {
      assert forall i :: 0 <= i < 1 ==> !Fails(w, i);
    }
  }

  // ---------------------------------------------------------------- delete_all_datapoints

  function DeleteAllSpec(w: Replies, projectId: Uuid, datasetId: Uuid): Outcome<()> {
    StraightLine(w, [DbDeleteAll(datasetId), DeleteEmbeddings(projectId, IdFilters(w.deletedIds))], ())
  }

  method DeleteAllDatapoints(w: Replies, projectId: Uuid, datasetId: Uuid)
    returns (resp: Response<()>, calls: seq<Call>)
    ensures Outcome(resp, calls) == DeleteAllSpec(w, projectId, datasetId)
  {
    var s := new Stores(w);
    var ok, deletedIds := s.DeleteAllDatapoints(datasetId);
    ghost var plan := [DbDeleteAll(datasetId), DeleteEmbeddings(projectId, IdFilters(w.deletedIds))];
    StepsSnoc(w, Start(), [], plan[0]);
    assert [] + [plan[0]] == plan[..1];
    if !ok {
      StopsEarly(w, Start(), plan[..1], plan[1..]);
      assert plan[..1] + plan[1..] == plan;
      return Err, s.trace;
    }
    ok := s.Send(DeleteEmbeddings(projectId, IdFilters(deletedIds)));
    StepsSnoc(w, Start(), plan[..1], plan[1]);
    assert plan[..1] + [plan[1]] == plan;
    if !ok {
      return Err, s.trace;
    }
    return Ok(()), s.trace;
  }

  /**
   * The embedding deletion comes only after the relational delete succeeded, with one
   * `{id}` filter per id the relational store reported deleted, in that order; it
   * removes exactly the points of those ids.
   */
  lemma {:induction false} DeleteAllFilters(w: Replies, projectId: Uuid, datasetId: Uuid, t: Tag)
    ensures var o := DeleteAllSpec(w, projectId, datasetId);
      && o.calls[0] == DbDeleteAll(datasetId)
      && (forall i :: 0 <= i < |o.calls| && o.calls[i].DeleteEmbeddings? ==>
            && i == 1 && !Fails(w, 0)
            && |o.calls[i].filters| == |w.deletedIds|
            && (forall k :: 0 <= k < |w.deletedIds| ==> o.calls[i].filters[k] == IdFilter(w.deletedIds[k]))
            && (Selects(o.calls[i].filters, t) <==> t.id in w.deletedIds))
      && (o.resp.Ok? <==> !Fails(w, 0) && !Fails(w, 1))
  {
    var o := DeleteAllSpec(w, projectId, datasetId);
    IdFiltersSelect(w.deletedIds, t);
    if !Fails(w, 0) && !Fails(w, 1) {
      assert forall i :: 0 <= i < 2 ==> !Fails(w, i);
    }
  }

  // ---------------------------------------------------------------- index_dataset

  /** Deleting the old embeddings: only when the dataset was indexed. */
  function OldEmbeddingsDeletion(projectId: Uuid, datasetId: Uuid,
                                 previous: Option<Column>): seq<Call> {
    if previous.Some? then [DeleteEmbeddings(projectId, [DatasetFilter(datasetId)])] else []
  }

  /** The calls of a re-index that changes the column, when none fails, for the chunks of the datapoints. */
  function ReindexPlan(projectId: Uuid, datasetId: Uuid, previous: Option<Column>,
                       column: Option<Column>, batches: seq<seq<Datapoint>>): seq<Call>
  {
    [DbGetDataset(projectId, datasetId), DbGetFullDatapoints(datasetId)]
      + OldEmbeddingsDeletion(projectId, datasetId, previous)
      + IndexCalls(projectId, batches, column)
      + [DbUpdateIndexColumn(datasetId, column)]
  }

  function IndexDatasetSpec(w: Replies, projectId: Uuid, datasetId: Uuid,
                            column: Option<Column>): (o: Outcome<Dataset>)
    ensures 0 < |o.calls| && o.calls[0] == DbGetDataset(projectId, datasetId)
    ensures forall i :: 0 <= i < |o.calls| - 1 ==> !Fails(w, i)
    ensures o.resp.Ok? ==> forall i :: 0 <= i < |o.calls| ==> !Fails(w, i)
    ensures o.resp == NotFound <==> !Fails(w, 0) && w.dataset.None?
    ensures o.resp == NotFound ==> o.calls == [DbGetDataset(projectId, datasetId)]
    ensures !Fails(w, 0) && w.dataset.Some? && w.dataset.value.indexedOn == column ==>
              o == Outcome(Ok(w.dataset.value), [DbGetDataset(projectId, datasetId)])
  {
    var looked := Steps(w, Start(), [DbGetDataset(projectId, datasetId)]);
    RunFromStart(w, [DbGetDataset(projectId, datasetId)]);
    if !looked.ok then Outcome(Err, looked.trace)
    else match w.dataset
      case None => Outcome(NotFound, looked.trace)
      case Some(dataset) =>
        if dataset.indexedOn == column then Outcome(Ok(dataset), looked.trace)
        else StraightLine(w, ReindexPlan(projectId, datasetId, dataset.indexedOn, column,
                                         Chunks(w.datapoints, BATCH_SIZE)), w.updated)
  }

  /** The calls for the batches so far and then some more, in the order they are made. */
  lemma {:induction false} IndexCallsSplit(head: seq<Call>, projectId: Uuid,
                                           batches: seq<seq<Datapoint>>, rest: seq<seq<Datapoint>>,
                                           column: Option<Column>)
    ensures head + IndexCalls(projectId, batches + rest, column)
         == (head + IndexCalls(projectId, batches, column)) + IndexCalls(projectId, rest, column)
  {
    IndexCallsAppend(projectId, batches, rest, column);
    var xs := IndexCalls(projectId, batches, column);
    var ys := IndexCalls(projectId, rest, column);
    assert head + (xs + ys) == (head + xs) + ys;
  }

  /** Indexing one more batch: one more call when a column is set, nothing otherwise. */
  lemma {:induction false} IndexOneMore(w: Replies, head: seq<Call>, projectId: Uuid,
                                        batches: seq<seq<Datapoint>>, batch: seq<Datapoint>,
                                        column: Option<Column>)
    ensures var before := Steps(w, Start(), head + IndexCalls(projectId, batches, column));
      Steps(w, Start(), head + IndexCalls(projectId, batches + [batch], column))
        == if column.Some? then Then(w, before, IndexNewPoints(projectId, batch, column)) else before
  {
    IndexCallsSplit(head, projectId, batches, [batch], column);
    var done := head + IndexCalls(projectId, batches, column);
    if column.Some? {
      assert IndexCalls(projectId, [batch], column) == [IndexNewPoints(projectId, batch, column)];
      StepsSnoc(w, Start(), done, IndexNewPoints(projectId, batch, column));
    } else {
      assert done + IndexCalls(projectId, [batch], column) == done;
    }
  }

  /** A failed index call ends the loop: the batches after it are never sent. */
  lemma {:induction false} IndexStopsAtFailure(w: Replies, head: seq<Call>, projectId: Uuid,
                                               batches: seq<seq<Datapoint>>,
                                               rest: seq<seq<Datapoint>>, column: Option<Column>)
    requires !Steps(w, Start(), head + IndexCalls(projectId, batches, column)).ok
    ensures Steps(w, Start(), head + IndexCalls(projectId, batches + rest, column))
         == Steps(w, Start(), head + IndexCalls(projectId, batches, column))
  {
    IndexCallsSplit(head, projectId, batches, rest, column);
    StopsEarly(w, Start(), head + IndexCalls(projectId, batches, column), IndexCalls(projectId, rest, column));
  }

  /** The chunks already sent, plus the next one, followed by the chunks still to send. */
  lemma {:induction false} ChunksAdvance(datapoints: seq<Datapoint>, batches: seq<seq<Datapoint>>,
                                         start: nat, end: nat)
    requires start < |datapoints|
    requires end == if start + BATCH_SIZE <= |datapoints| then start + BATCH_SIZE else |datapoints|
    requires Chunks(datapoints, BATCH_SIZE) == batches + Chunks(datapoints[start..], BATCH_SIZE)
    ensures Chunks(datapoints, BATCH_SIZE)
         == (batches + [datapoints[start..end]]) + Chunks(datapoints[end..], BATCH_SIZE)
  {
    ChunksStep(datapoints, BATCH_SIZE, start);
  }

  /**
   * `for batch in datapoints.chunks(BATCH_SIZE)`: one index call per chunk, in order,
   * when a column is set; the first failing call ends the loop.
   */
  method IndexChunks(s: Stores, projectId: Uuid, datapoints: seq<Datapoint>,
                     indexColumn: Option<Column>, ghost head: seq<Call>)
    returns (ok: bool)
    requires Steps(s.replies, Start(), head) == Run(s.trace, true)
    modifies s
    ensures Steps(s.replies, Start(), head + IndexCalls(projectId, Chunks(datapoints, BATCH_SIZE), indexColumn))
         == Run(s.trace, ok)
  {
    ghost var w := s.replies;
    var start := 0;
    ghost var batches: seq<seq<Datapoint>> := [];
    assert head + IndexCalls(projectId, batches, indexColumn) == head;
    while start < |datapoints|
      invariant 0 <= start <= |datapoints|
      invariant Chunks(datapoints, BATCH_SIZE) == batches + Chunks(datapoints[start..], BATCH_SIZE)
      invariant Steps(w, Start(), head + IndexCalls(projectId, batches, indexColumn)) == Run(s.trace, true)
      decreases |datapoints| - start
    {
      var end := if start + BATCH_SIZE <= |datapoints| then start + BATCH_SIZE else |datapoints|;
      var batch := datapoints[start..end];
      ChunksAdvance(datapoints, batches, start, end);
      IndexOneMore(w, head, projectId, batches, batch, indexColumn);
      if indexColumn.Some? {
        ok := s.Send(IndexNewPoints(projectId, batch, indexColumn));
        if !ok {
          IndexStopsAtFailure(w, head, projectId, batches + [batch], Chunks(datapoints[end..], BATCH_SIZE),
                              indexColumn);
          assert Steps(w, Start(), head + IndexCalls(projectId, batches + [batch], indexColumn)) == Run(s.trace, false);
          return;
        }
      }
      batches := batches + [batch];
      start := end;
    }
    assert datapoints[start..] == [];
    assert batches == Chunks(datapoints, BATCH_SIZE);
    ok := true;
  }

  /** Once the dataset is found and the column changes, the handler runs the re-index plan. */
  lemma {:induction false} ReindexRunsPlan(w: Replies, projectId: Uuid, datasetId: Uuid,
                                           column: Option<Column>)
    requires !Fails(w, 0) && w.dataset.Some? && w.dataset.value.indexedOn != column
    ensures var plan := ReindexPlan(projectId, datasetId, w.dataset.value.indexedOn, column,
                                    Chunks(w.datapoints, BATCH_SIZE));
      var r := Steps(w, Start(), plan);
      IndexDatasetSpec(w, projectId, datasetId, column) == Outcome(if r.ok then Ok(w.updated) else Err, r.trace)
  {
    StepsSnoc(w, Start(), [], DbGetDataset(projectId, datasetId));
    assert [] + [DbGetDataset(projectId, datasetId)] == [DbGetDataset(projectId, datasetId)];
  }

  /**
   * The first half of the re-index: load the datapoints, then, for a dataset that was
   * indexed, delete every point of the dataset from the vector index.
   */
  method LoadAndDeleteOld(s: Stores, projectId: Uuid, datasetId: Uuid, previous: Option<Column>)
    returns (ok: bool, datapoints: seq<Datapoint>)
    requires Steps(s.replies, Start(), [DbGetDataset(projectId, datasetId)]) == Run(s.trace, true)
    modifies s
    ensures var done := [DbGetDataset(projectId, datasetId), DbGetFullDatapoints(datasetId)]
                        + OldEmbeddingsDeletion(projectId, datasetId, previous);
      Steps(s.replies, Start(), done) == Run(s.trace, ok)
    ensures datapoints == s.replies.datapoints
  {
    ghost var w := s.replies;
    ghost var head := [DbGetDataset(projectId, datasetId), DbGetFullDatapoints(datasetId)];
    ghost var deletion := OldEmbeddingsDeletion(projectId, datasetId, previous);
    assert [DbGetDataset(projectId, datasetId)] + [DbGetFullDatapoints(datasetId)] == head;

    ok, datapoints := s.GetFullDatapoints(datasetId);
    StepsSnoc(w, Start(), [DbGetDataset(projectId, datasetId)], DbGetFullDatapoints(datasetId));
    if !ok {
      StopsEarly(w, Start(), head, deletion);
      return;
    }

    // An indexed dataset loses all of its points in the vector index
    if previous.Some? {
      ok := s.Send(DeleteEmbeddings(projectId, [DatasetFilter(datasetId)]));
      StepsSnoc(w, Start(), head, DeleteEmbeddings(projectId, [DatasetFilter(datasetId)]));
    } else {
      assert head + deletion == head;
    }
  }

  /**
   * The part of the handler that changes the column: load the datapoints, delete the
   * old embeddings if there were any, index every chunk, commit the new column.
   */
  method Reindex(s: Stores, projectId: Uuid, datasetId: Uuid, previous: Option<Column>,
                 indexColumn: Option<Column>)
    returns (resp: Response<Dataset>)
    requires Steps(s.replies, Start(), [DbGetDataset(projectId, datasetId)]) == Run(s.trace, true)
    modifies s
    ensures var plan := ReindexPlan(projectId, datasetId, previous, indexColumn,
                                    Chunks(s.replies.datapoints, BATCH_SIZE));
      Steps(s.replies, Start(), plan) == Run(s.trace, resp.Ok?)
    ensures resp == Ok(s.replies.updated) || resp == Err
  {
    ghost var w := s.replies;
    ghost var done := [DbGetDataset(projectId, datasetId), DbGetFullDatapoints(datasetId)]
                      + OldEmbeddingsDeletion(projectId, datasetId, previous);
    ghost var indexing := IndexCalls(projectId, Chunks(w.datapoints, BATCH_SIZE), indexColumn);
    ghost var commit := [DbUpdateIndexColumn(datasetId, indexColumn)];
    assert ReindexPlan(projectId, datasetId, previous, indexColumn, Chunks(w.datapoints, BATCH_SIZE))
        == done + indexing + commit == done + (indexing + commit);

    var ok, datapoints := LoadAndDeleteOld(s, projectId, datasetId, previous);
    if !ok {
      StopsEarly(w, Start(), done, indexing + commit);
      return Err;
    }

    // Each chunk of the loaded datapoints goes to the new column's index
    ok := IndexChunks(s, projectId, datapoints, indexColumn, done);
    if !ok {
      StopsEarly(w, Start(), done + indexing, commit);
      return Err;
    }

    var committed;
    ok, committed := s.UpdateIndexColumn(datasetId, indexColumn);
    StepsSnoc(w, Start(), done + indexing, DbUpdateIndexColumn(datasetId, indexColumn));
    resp := if ok then Ok(committed) else Err;
  }

  method IndexDataset(w: Replies, projectId: Uuid, datasetId: Uuid, indexColumn: Option<Column>)
    returns (resp: Response<Dataset>, calls: seq<Call>)
    ensures Outcome(resp, calls) == IndexDatasetSpec(w, projectId, datasetId, indexColumn)
  {
    var s := new Stores(w);
    var ok, found := s.GetDataset(projectId, datasetId);
    StepsSnoc(w, Start(), [], DbGetDataset(projectId, datasetId));
    assert [] + [DbGetDataset(projectId, datasetId)] == [DbGetDataset(projectId, datasetId)];
    if !ok {
      return Err, s.trace;
    }
    if found.None? {
      return NotFound, s.trace;
    }
    var dataset := found.value;
    if dataset.indexedOn == indexColumn {
      return Ok(dataset), s.trace;
    }
    resp := Reindex(s, projectId, datasetId, dataset.indexedOn, indexColumn);
    ReindexRunsPlan(w, projectId, datasetId, indexColumn);
    return resp, s.trace;
  }

  /**
   * The calls of `index_dataset`: the lookup alone when it fails, finds nothing or
   * finds the column unchanged; otherwise a prefix of the re-index plan, with the
   * answer that `ReindexRunsPlan` gives.
   */
  lemma {:induction false} IndexDatasetCalls(w: Replies, projectId: Uuid, datasetId: Uuid,
                                             column: Option<Column>)
    ensures var o := IndexDatasetSpec(w, projectId, datasetId, column);
      if !Fails(w, 0) && w.dataset.Some? && w.dataset.value.indexedOn != column then
        var plan := ReindexPlan(projectId, datasetId, w.dataset.value.indexedOn, column,
                                Chunks(w.datapoints, BATCH_SIZE));
        && |o.calls| <= |plan|
        && o.calls == plan[..|o.calls|]
        && (o.resp.Ok? <==> o.calls == plan && forall i :: 0 <= i < |plan| ==> !Fails(w, i))
        && (o.resp.Ok? ==> o.resp.value == w.updated)
        && (!o.resp.Ok? ==> Fails(w, |o.calls| - 1))
      else
        o.calls == [DbGetDataset(projectId, datasetId)]
  {
    var o := IndexDatasetSpec(w, projectId, datasetId, column);
    if !Fails(w, 0) && w.dataset.Some? && w.dataset.value.indexedOn != column {
      ReindexRunsPlan(w, projectId, datasetId, column);
      RunFromStart(w, ReindexPlan(projectId, datasetId, w.dataset.value.indexedOn, column,
                                  Chunks(w.datapoints, BATCH_SIZE)));
    } else {
      RunFromStart(w, [DbGetDataset(projectId, datasetId)]);
      StepsSnoc(w, Start(), [], DbGetDataset(projectId, datasetId));
      assert [] + [DbGetDataset(projectId, datasetId)] == [DbGetDataset(projectId, datasetId)];
    }
  }

  /** The first two calls, the optional deletion and the commit at the end of the re-index plan. */
  lemma {:induction false} ReindexPlanEnds(projectId: Uuid, datasetId: Uuid,
                                           previous: Option<Column>, column: Option<Column>,
                                           batches: seq<seq<Datapoint>>)
    ensures var plan := ReindexPlan(projectId, datasetId, previous, column, batches);
      var k := |OldEmbeddingsDeletion(projectId, datasetId, previous)|;
      && (k == 1 <==> previous.Some?) && (k == 0 <==> previous.None?)
      && |plan| == 3 + k + |IndexCalls(projectId, batches, column)|
      && plan[0] == DbGetDataset(projectId, datasetId)
      && plan[1] == DbGetFullDatapoints(datasetId)
      && (k == 1 ==> plan[2] == DeleteEmbeddings(projectId, [DatasetFilter(datasetId)]))
      && plan[|plan| - 1] == DbUpdateIndexColumn(datasetId, column)
  {
  }

  /**
   * What each position of the re-index plan may hold: the deletion only third and
   * only for an indexed dataset, index calls only after it and only with the new
   * column, the commit only last.
   */
  lemma {:induction false} ReindexPlanKinds(projectId: Uuid, datasetId: Uuid,
                                            previous: Option<Column>, column: Option<Column>,
                                            batches: seq<seq<Datapoint>>)
    ensures var plan := ReindexPlan(projectId, datasetId, previous, column, batches);
      var k := |OldEmbeddingsDeletion(projectId, datasetId, previous)|;
      forall i :: 0 <= i < |plan| ==>
        && (plan[i].DeleteEmbeddings? ==>
              i == 2 && k == 1 && plan[i] == DeleteEmbeddings(projectId, [DatasetFilter(datasetId)]))
        && (plan[i].IndexNewPoints? ==> 2 + k <= i && plan[i].column == column && column.Some?)
        && (plan[i].DbUpdateIndexColumn? ==> i == |plan| - 1 && plan[i] == DbUpdateIndexColumn(datasetId, column))
  {
    var deletion := OldEmbeddingsDeletion(projectId, datasetId, previous);
    var head := [DbGetDataset(projectId, datasetId), DbGetFullDatapoints(datasetId)] + deletion;
    var indexing := IndexCalls(projectId, batches, column);
    var tail := [DbUpdateIndexColumn(datasetId, column)];
    var plan := ReindexPlan(projectId, datasetId, previous, column, batches);
    assert plan == head + indexing + tail;
    IndexCallsAt(projectId, batches, column);
    forall i | 0 <= i < |plan|
      ensures plan[i].DeleteEmbeddings? ==>
                i == 2 && |deletion| == 1 && plan[i] == DeleteEmbeddings(projectId, [DatasetFilter(datasetId)])
      ensures plan[i].IndexNewPoints? ==> |head| <= i && plan[i].column == column && column.Some?
      ensures plan[i].DbUpdateIndexColumn? ==> i == |plan| - 1 && plan[i] == DbUpdateIndexColumn(datasetId, column)
    {
      if i < |head| {
        assert plan[i] == head[i];
        if i >= 2 {
          assert head[i] == deletion[i - 2];
        }
      } else if i < |head| + |indexing| {
        assert column.Some?;
        assert plan[i] == indexing[i - |head|];
      } else {
        assert i == |plan| - 1;
        assert plan[i] == tail[0];
      }
    }
  }

  /**
   * The old embeddings are deleted, with the single filter `{datasource_id}`, only
   * if the dataset was indexed, and before any index call; once the datapoints are
   * loaded, a previously indexed dataset always has them deleted next.
   */
  lemma {:induction false} ReindexDeletesOldFirst(w: Replies, projectId: Uuid, datasetId: Uuid,
                                                  column: Option<Column>)
    ensures var o := IndexDatasetSpec(w, projectId, datasetId, column);
      && (forall i :: 0 <= i < |o.calls| && o.calls[i].DeleteEmbeddings? ==>
            && i == 2
            && o.calls[i] == DeleteEmbeddings(projectId, [DatasetFilter(datasetId)])
            && w.dataset.Some? && w.dataset.value.indexedOn.Some?)
      && (forall i, j :: 0 <= i < |o.calls| && 0 <= j < |o.calls|
                         && o.calls[i].DeleteEmbeddings? && o.calls[j].IndexNewPoints? ==>
            i < j)
      && (w.dataset.Some? && w.dataset.value.indexedOn.Some? && |o.calls| > 1 && !Fails(w, 1) ==>
            |o.calls| > 2 && o.calls[2] == DeleteEmbeddings(projectId, [DatasetFilter(datasetId)]))
  {
    var o := IndexDatasetSpec(w, projectId, datasetId, column);
    IndexDatasetCalls(w, projectId, datasetId, column);
    if !Fails(w, 0) && w.dataset.Some? && w.dataset.value.indexedOn != column {
      var previous := w.dataset.value.indexedOn;
      var plan := ReindexPlan(projectId, datasetId, previous, column, Chunks(w.datapoints, BATCH_SIZE));
      var k := |OldEmbeddingsDeletion(projectId, datasetId, previous)|;
      ReindexPlanKinds(projectId, datasetId, previous, column, Chunks(w.datapoints, BATCH_SIZE));
      forall i | 0 <= i < |o.calls|
        ensures o.calls[i].DeleteEmbeddings? ==>
                  i == 2 && k == 1 && o.calls[i] == DeleteEmbeddings(projectId, [DatasetFilter(datasetId)])
        ensures o.calls[i].IndexNewPoints? ==> 2 + k <= i
      {
        assert o.calls[i] == plan[i];
      }
      if previous.Some? && |o.calls| > 1 && !Fails(w, 1) {
        ReindexPlanEnds(projectId, datasetId, previous, column, Chunks(w.datapoints, BATCH_SIZE));
        assert |o.calls| > 2;
        assert o.calls[2] == plan[2];
      }
    } else {
      assert |o.calls| == 1;
    }
  }

  /** The whole re-index plan sends exactly the chunks of the datapoints, or nothing without a column. */
  lemma {:induction false} ReindexPlanBatches(projectId: Uuid, datasetId: Uuid,
                                              previous: Option<Column>, column: Option<Column>,
                                              batches: seq<seq<Datapoint>>)
    ensures IndexedBatches(ReindexPlan(projectId, datasetId, previous, column, batches))
      == if column.Some? then batches else []
  {
    var head := [DbGetDataset(projectId, datasetId), DbGetFullDatapoints(datasetId)]
      + OldEmbeddingsDeletion(projectId, datasetId, previous);
    var indexing := IndexCalls(projectId, batches, column);
    var commit := [DbUpdateIndexColumn(datasetId, column)];
    assert ReindexPlan(projectId, datasetId, previous, column, batches) == head + indexing + commit;
    NoIndexedBatches(head);
    NoIndexedBatches(commit);
    IndexedBatchesOfIndexCalls(projectId, batches, column);
    IndexedBatchesAppend(head, indexing);
    IndexedBatchesAppend(head + indexing, commit);
  }

  /**
   * With a column, the loaded datapoints go to the index in ceil(n / 50) calls whose
   * points, concatenated in call order, are the datapoints; a failure sends a prefix
   * of those chunks. Without a column, no index call is made.
   */
  lemma {:induction false} ReindexBatches(w: Replies, projectId: Uuid, datasetId: Uuid,
                                          column: Option<Column>)
    ensures var o := IndexDatasetSpec(w, projectId, datasetId, column);
      var sent := IndexedBatches(o.calls);
      && (column.None? ==> sent == [])
      && (forall i :: 0 <= i < |o.calls| && o.calls[i].IndexNewPoints? ==> o.calls[i].column == column && column.Some?)
      && sent <= Chunks(w.datapoints, BATCH_SIZE)
      && (o.resp.Ok? && |o.calls| > 1 && column.Some? ==>
            && sent == Chunks(w.datapoints, BATCH_SIZE)
            && |sent| == (|w.datapoints| + BATCH_SIZE - 1) / BATCH_SIZE
            && Flatten(sent) == w.datapoints)
  {
    var o := IndexDatasetSpec(w, projectId, datasetId, column);
    IndexDatasetCalls(w, projectId, datasetId, column);
    if !Fails(w, 0) && w.dataset.Some? && w.dataset.value.indexedOn != column {
      var previous := w.dataset.value.indexedOn;
      var plan := ReindexPlan(projectId, datasetId, previous, column, Chunks(w.datapoints, BATCH_SIZE));
      ReindexPlanBatches(projectId, datasetId, previous, column, Chunks(w.datapoints, BATCH_SIZE));
      IndexedBatchesPrefix(plan, |o.calls|);
      ReindexPlanKinds(projectId, datasetId, previous, column, Chunks(w.datapoints, BATCH_SIZE));
      forall i | 0 <= i < |o.calls| && o.calls[i].IndexNewPoints?
        ensures o.calls[i].column == column && column.Some?
      {
        assert o.calls[i] == plan[i];
      }
      if o.resp.Ok? {
        ChunkCount(w.datapoints);
        ChunksFlatten(w.datapoints, BATCH_SIZE);
      }
    } else {
      NoIndexedBatches(o.calls);
    }
  }

  /**
   * `update_index_column(dataset_id, index_column)` is the last call whenever it is
   * made, and it is made only after every earlier call succeeded.
   */
  lemma {:induction false} ReindexCommitsLast(w: Replies, projectId: Uuid, datasetId: Uuid,
                                              column: Option<Column>)
    ensures var o := IndexDatasetSpec(w, projectId, datasetId, column);
      forall i :: 0 <= i < |o.calls| && o.calls[i].DbUpdateIndexColumn? ==>
        && i == |o.calls| - 1
        && o.calls[i] == DbUpdateIndexColumn(datasetId, column)
        && (forall j :: 0 <= j < i ==> !Fails(w, j))
  {
    var o := IndexDatasetSpec(w, projectId, datasetId, column);
    IndexDatasetCalls(w, projectId, datasetId, column);
    if !Fails(w, 0) && w.dataset.Some? && w.dataset.value.indexedOn != column {
      var batches := Chunks(w.datapoints, BATCH_SIZE);
      var plan := ReindexPlan(projectId, datasetId, w.dataset.value.indexedOn, column, batches);
      ReindexPlanKinds(projectId, datasetId, w.dataset.value.indexedOn, column, batches);
      forall i | 0 <= i < |o.calls| && o.calls[i].DbUpdateIndexColumn?
        ensures i == |o.calls| - 1 && o.calls[i] == DbUpdateIndexColumn(datasetId, column)
      {
        assert o.calls[i] == plan[i];
      }
    }
  }

  /**
   * A re-index succeeds exactly when the commit is made and succeeds, and then
   * answers the committed record; a failure anywhere leaves the column uncommitted.
   * Only the no-change answer succeeds without a commit.
   */
  lemma {:induction false} ReindexCommitDecides(w: Replies, projectId: Uuid, datasetId: Uuid,
                                                column: Option<Column>)
    ensures var o := IndexDatasetSpec(w, projectId, datasetId, column);
      && (o.resp.Ok? && |o.calls| > 1 <==>
            && o.calls[|o.calls| - 1] == DbUpdateIndexColumn(datasetId, column)
            && !Fails(w, |o.calls| - 1))
      && (o.resp.Ok? && |o.calls| > 1 ==> o.resp.value == w.updated)
      && (o.resp.Ok? && |o.calls| == 1 ==>
            w.dataset.Some? && w.dataset.value.indexedOn == column && o.resp.value == w.dataset.value)
  {
    var o := IndexDatasetSpec(w, projectId, datasetId, column);
    IndexDatasetCalls(w, projectId, datasetId, column);
    if !Fails(w, 0) && w.dataset.Some? && w.dataset.value.indexedOn != column {
      var batches := Chunks(w.datapoints, BATCH_SIZE);
      var plan := ReindexPlan(projectId, datasetId, w.dataset.value.indexedOn, column, batches);
      ReindexPlanKinds(projectId, datasetId, w.dataset.value.indexedOn, column, batches);
      ReindexPlanEnds(projectId, datasetId, w.dataset.value.indexedOn, column, batches);
      var last := |o.calls| - 1;
      if o.calls[last] == DbUpdateIndexColumn(datasetId, column) && !Fails(w, last) {
        assert o.calls[last] == plan[last];
        assert |o.calls| == |plan|;
        assert o.calls == plan;
        assert forall i :: 0 <= i < |plan| ==> !Fails(w, i);
      }
    }
  }
}

/**
 * The filter lists the dataset routes send with an embedding deletion, and what a
 * filter list selects. The vector index tags every embedding point with the id of
 * its datapoint (`id`) and of its dataset (`datasource_id`); a filter is a map from
 * such payload keys to exact values, and a deletion removes the points that match
 * at least one filter of its list.
 */
module Filters {
  import opened Types

  const ID_KEY: string := "id"
  const DATASOURCE_KEY: string := "datasource_id"

  /** The two payload tags of an embedding point that the deletion filters can name. */
  datatype Tag = Tag(id: Uuid, datasourceId: Uuid)

  function Payload(t: Tag): map<string, Uuid> {
    map[ID_KEY := t.id, DATASOURCE_KEY := t.datasourceId]
  }

  /** Every key of the filter is a payload key of the point, with the filter's value. */
  predicate Matches(f: Filter, t: Tag) {
    forall k :: k in f ==> k in Payload(t) && Payload(t)[k] == f[k]
  }

  /** A deletion with these filters removes the point tagged `t`. */
  ghost predicate Selects(filters: seq<Filter>, t: Tag) {
    exists i :: 0 <= i < |filters| && Matches(filters[i], t)
  }

  /** `{datasource_id: dataset_id}`: every point of one dataset. */
  function DatasetFilter(datasetId: Uuid): Filter {
    map[DATASOURCE_KEY := datasetId]
  }

  /** `{id: datapoint_id}`: the point of one datapoint, whatever its dataset. */
  function IdFilter(id: Uuid): Filter {
    map[ID_KEY := id]
  }

  /** `{id, datasource_id}`: the point of one datapoint, scoped to one dataset. */
  function ScopedFilter(id: Uuid, datasetId: Uuid): Filter {
    map[ID_KEY := id, DATASOURCE_KEY := datasetId]
  }

  lemma KeysDiffer()
    ensures ID_KEY != DATASOURCE_KEY
  {
    assert |ID_KEY| != |DATASOURCE_KEY|;
  }

  /** The key set of each filter shape. */
  lemma FilterKeys(id: Uuid, datasetId: Uuid)
    ensures DatasetFilter(datasetId).Keys == {DATASOURCE_KEY} && DatasetFilter(datasetId)[DATASOURCE_KEY] == datasetId
    ensures IdFilter(id).Keys == {ID_KEY} && IdFilter(id)[ID_KEY] == id
    ensures ScopedFilter(id, datasetId).Keys == {ID_KEY, DATASOURCE_KEY}
    ensures ScopedFilter(id, datasetId)[ID_KEY] == id && ScopedFilter(id, datasetId)[DATASOURCE_KEY] == datasetId
  {
    KeysDiffer();
  }

  /** What each single filter matches. */
  lemma FilterMatches(id: Uuid, datasetId: Uuid, t: Tag)
    ensures Matches(DatasetFilter(datasetId), t) <==> t.datasourceId == datasetId
    ensures Matches(IdFilter(id), t) <==> t.id == id
    ensures Matches(ScopedFilter(id, datasetId), t) <==> t.id == id && t.datasourceId == datasetId
  {
    KeysDiffer();
    assert DATASOURCE_KEY in DatasetFilter(datasetId);
    assert ID_KEY in IdFilter(id);
    assert ID_KEY in ScopedFilter(id, datasetId) && DATASOURCE_KEY in ScopedFilter(id, datasetId);
  }

  /** One `{id, datasource_id}` filter per id, in the order of the ids. */
  function ScopedFilters(ids: seq<Uuid>, datasetId: Uuid): (fs: seq<Filter>)
    ensures |fs| == |ids|
    ensures forall i :: 0 <= i < |ids| ==> fs[i] == ScopedFilter(ids[i], datasetId)
  {
    if ids == [] then [] else [ScopedFilter(ids[0], datasetId)] + ScopedFilters(ids[1..], datasetId)
  }

  /** One `{id}` filter per id, in the order of the ids. */
  function IdFilters(ids: seq<Uuid>): (fs: seq<Filter>)
    ensures |fs| == |ids|
    ensures forall i :: 0 <= i < |ids| ==> fs[i] == IdFilter(ids[i])
  {
    if ids == [] then [] else [IdFilter(ids[0])] + IdFilters(ids[1..])
  }

  /** The ids named by a filter list, in order; the inverse of both builders. */
  function FilteredIds(fs: seq<Filter>): (ids: seq<Uuid>)
    requires forall i :: 0 <= i < |fs| ==> ID_KEY in fs[i]
    ensures |ids| == |fs|
    ensures forall i :: 0 <= i < |fs| ==> ids[i] == fs[i][ID_KEY]
  {
    if fs == [] then [] else [fs[0][ID_KEY]] + FilteredIds(fs[1..])
  }

  lemma {:induction false} ScopedFiltersRoundTrip(ids: seq<Uuid>, datasetId: Uuid)
    ensures var fs := ScopedFilters(ids, datasetId);
      (forall i :: 0 <= i < |fs| ==> ID_KEY in fs[i]) && FilteredIds(fs) == ids
  {
    var fs := ScopedFilters(ids, datasetId);
    forall i | 0 <= i < |fs| ensures ID_KEY in fs[i] && fs[i][ID_KEY] == ids[i] {
      FilterKeys(ids[i], datasetId);
    }
    assert FilteredIds(fs) == ids;
  }

  lemma {:induction false} IdFiltersRoundTrip(ids: seq<Uuid>)
    ensures var fs := IdFilters(ids);
      (forall i :: 0 <= i < |fs| ==> ID_KEY in fs[i]) && FilteredIds(fs) == ids
  {
    var fs := IdFilters(ids);
    forall i | 0 <= i < |fs| ensures ID_KEY in fs[i] && fs[i][ID_KEY] == ids[i] {
      FilterKeys(ids[i], 0);
    }
    assert FilteredIds(fs) == ids;
  }

  /** Deleting one dataset's embeddings removes exactly the points tagged with that dataset. */
  lemma DatasetFilterSelects(datasetId: Uuid, t: Tag)
    ensures Selects([DatasetFilter(datasetId)], t) <==> t.datasourceId == datasetId
  {
    FilterMatches(0, datasetId, t);
    if t.datasourceId == datasetId {
      assert Matches([DatasetFilter(datasetId)][0], t);
    }
  }

  /** The per-id scoped filters remove exactly the listed datapoints of that dataset. */
  lemma {:induction false} ScopedFiltersSelect(ids: seq<Uuid>, datasetId: Uuid, t: Tag)
    ensures Selects(ScopedFilters(ids, datasetId), t) <==> t.id in ids && t.datasourceId == datasetId
  {
    var fs := ScopedFilters(ids, datasetId);
    if Selects(fs, t) {
      var i :| 0 <= i < |fs| && Matches(fs[i], t);
      FilterMatches(ids[i], datasetId, t);
    }
    if t.id in ids && t.datasourceId == datasetId {
      var i :| 0 <= i < |ids| && ids[i] == t.id;
      FilterMatches(ids[i], datasetId, t);
      assert Matches(fs[i], t);
    }
  }

  /** The `{id}`-only filters remove exactly the listed datapoints, in any dataset. */
  lemma {:induction false} IdFiltersSelect(ids: seq<Uuid>, t: Tag)
    ensures Selects(IdFilters(ids), t) <==> t.id in ids
  {
    var fs := IdFilters(ids);
    if Selects(fs, t) {
      var i :| 0 <= i < |fs| && Matches(fs[i], t);
      FilterMatches(ids[i], 0, t);
    }
    if t.id in ids {
      var i :| 0 <= i < |ids| && ids[i] == t.id;
      FilterMatches(ids[i], 0, t);
      assert Matches(fs[i], t);
    }
  }
}

/**
 * The store calls of one request as an ordered trace. A handler awaits each call
 * and applies `?` to it, so the first call that fails ends the handler: `Steps`
 * gives the trace and the success flag of running a straight line of such calls,
 * and `Stores` is the imperative face of the same thing, recording each call as
 * it is made.
 */
module Trace {
  import opened Types

  /** The calls made so far and whether all of them succeeded. */
  datatype Run = Run(trace: seq<Call>, ok: bool)

  function Start(): Run { Run([], true) }

  /** The call made at position `pos` of the request returns an error. */
  predicate Fails(w: Replies, pos: nat) { pos in w.failing }

  /**
   * One awaited call followed by `?`: skipped once an earlier call has failed. A step
   * records at most the one call, and a run that has failed stays failed.
   */
  function Then(w: Replies, r: Run, c: Call): (r': Run)
    ensures |r.trace| <= |r'.trace| <= |r.trace| + 1
    ensures r'.ok ==> r.ok
  {
    if !r.ok then r else Run(r.trace + [c], !Fails(w, |r.trace|))
  }

  /** A straight line of awaited calls, each followed by `?`. */
  function Steps(w: Replies, r: Run, plan: seq<Call>): (r': Run)
    decreases |plan|
  {
    if plan == [] then r else Then(w, Steps(w, r, plan[..|plan| - 1]), plan[|plan| - 1])
  }

  /** Every recorded call but the last succeeded, and `ok` says whether the last did too. */
  ghost predicate Consistent(w: Replies, r: Run) {
    && (forall i :: 0 <= i < |r.trace| - 1 ==> !Fails(w, i))
    && (r.ok <==> forall i :: 0 <= i < |r.trace| ==> !Fails(w, i))
  }

  /**
   * One step only extends the trace and keeps a run consistent: the invariant behind
   * `StepsRecordsPrefix`.
   */
  lemma ThenKeepsConsistent(w: Replies, r: Run, c: Call)
    requires Consistent(w, r)
    ensures r.trace <= Then(w, r, c).trace
    ensures Consistent(w, Then(w, r, c))
  {
  }

  lemma {:induction false} StoppedStaysStopped(w: Replies, r: Run, plan: seq<Call>)
    requires !r.ok
    ensures Steps(w, r, plan) == r
    decreases |plan|
  {
    if plan != [] {
      StoppedStaysStopped(w, r, plan[..|plan| - 1]);
    }
  }

  /** Running two plans one after the other is running their concatenation. */
  lemma {:induction false} StepsAppend(w: Replies, r: Run, a: seq<Call>, b: seq<Call>)
    ensures Steps(w, r, a + b) == Steps(w, Steps(w, r, a), b)
    decreases |b|
  {
    if b == [] {
      assert a + b == a;
    } else {
      var b' := b[..|b| - 1];
      assert (a + b)[..|a + b| - 1] == a + b';
      assert (a + b)[|a + b| - 1] == b[|b| - 1];
      StepsAppend(w, r, a, b');
    }
  }

  /** Making one more call after a plan. */
  lemma StepsSnoc(w: Replies, r: Run, plan: seq<Call>, c: Call)
    ensures Steps(w, r, plan + [c]) == Then(w, Steps(w, r, plan), c)
  {
    assert (plan + [c])[..|plan|] == plan;
  }

  /** Once a call of `a` has failed, nothing of `b` is run. */
  lemma StopsEarly(w: Replies, r: Run, a: seq<Call>, b: seq<Call>)
    requires !Steps(w, r, a).ok
    ensures Steps(w, r, a + b) == Steps(w, r, a)
  {
    StepsAppend(w, r, a, b);
    StoppedStaysStopped(w, Steps(w, r, a), b);
  }

  /**
   * Running a plan from a consistent run records a prefix of the plan, stops right
   * after the first failing call, and reports success exactly when the whole plan
   * was recorded and no recorded call failed.
   */
  lemma {:induction false} StepsRecordsPrefix(w: Replies, r: Run, plan: seq<Call>)
    requires r.ok && Consistent(w, r)
    ensures var r' := Steps(w, r, plan);
      && Consistent(w, r')
      && |r.trace| <= |r'.trace| <= |r.trace| + |plan|
      && r'.trace == r.trace + plan[..|r'.trace| - |r.trace|]
      && (r'.ok ==> |r'.trace| == |r.trace| + |plan|)
      && (!r'.ok ==> |r'.trace| > |r.trace|)
    decreases |plan|
  {
    if plan != [] {
      var init := plan[..|plan| - 1];
      StepsRecordsPrefix(w, r, init);
      var m := Steps(w, r, init);
      var r' := Steps(w, r, plan);
      assert r' == Then(w, m, plan[|plan| - 1]);
      ThenKeepsConsistent(w, m, plan[|plan| - 1]);
      if m.ok {
        assert m.trace == r.trace + init;
        assert r'.trace == r.trace + plan;
        assert plan[..|plan|] == plan;
      } else {
        assert r' == m;
        assert init[..|m.trace| - |r.trace|] == plan[..|m.trace| - |r.trace|];
      }
    }
  }

  /** The form of `StepsRecordsPrefix` used by the handlers, which all start from nothing. */
  lemma RunFromStart(w: Replies, plan: seq<Call>)
    ensures var r := Steps(w, Start(), plan);
      && |r.trace| <= |plan|
      && r.trace == plan[..|r.trace|]
      && (forall i :: 0 <= i < |r.trace| - 1 ==> !Fails(w, i))
      && (r.ok <==> r.trace == plan && forall i :: 0 <= i < |plan| ==> !Fails(w, i))
      && (!r.ok ==> |r.trace| > 0 && Fails(w, |r.trace| - 1))
  {
    StepsRecordsPrefix(w, Start(), plan);
  }

  /**
   * The two stores as seen by one request: every call is appended to `trace`, and
   * is answered from `replies` according to its position.
   */
  class Stores {
    const replies: Replies
    var trace: seq<Call>

    constructor (replies: Replies)
      ensures this.replies == replies && trace == []
    {
      this.replies := replies;
      trace := [];
    }

    /** A call that returns nothing but can fail. */
    method Send(c: Call) returns (ok: bool)
      modifies this
      ensures trace == old(trace) + [c]
      ensures ok <==> !Fails(replies, |old(trace)|)
    {
      ok := |trace| !in replies.failing;
      trace := trace + [c];
    }

    method GetDataset(projectId: Uuid, datasetId: Uuid) returns (ok: bool, found: Option<Dataset>)
      modifies this
      ensures trace == old(trace) + [DbGetDataset(projectId, datasetId)]
      ensures ok <==> !Fails(replies, |old(trace)|)
      ensures found == replies.dataset
    {
      ok := Send(DbGetDataset(projectId, datasetId));
      found := replies.dataset;
    }

    method GetFullDatapoints(datasetId: Uuid) returns (ok: bool, datapoints: seq<Datapoint>)
      modifies this
      ensures trace == old(trace) + [DbGetFullDatapoints(datasetId)]
      ensures ok <==> !Fails(replies, |old(trace)|)
      ensures datapoints == replies.datapoints
    {
      ok := Send(DbGetFullDatapoints(datasetId));
      datapoints := replies.datapoints;
    }

    method DeleteAllDatapoints(datasetId: Uuid) returns (ok: bool, deletedIds: seq<Uuid>)
      modifies this
      ensures trace == old(trace) + [DbDeleteAll(datasetId)]
      ensures ok <==> !Fails(replies, |old(trace)|)
      ensures deletedIds == replies.deletedIds
    {
      ok := Send(DbDeleteAll(datasetId));
      deletedIds := replies.deletedIds;
    }

    method InsertDatapointsFromFile(datasetId: Uuid) returns (ok: bool, inserted: seq<Datapoint>)
      modifies this
      ensures trace == old(trace) + [DbInsertFromFile(datasetId)]
      ensures ok <==> !Fails(replies, |old(trace)|)
      ensures inserted == replies.inserted
    {
      ok := Send(DbInsertFromFile(datasetId));
      inserted := replies.inserted;
    }

    method UpdateIndexColumn(datasetId: Uuid, column: Option<Column>)
      returns (ok: bool, dataset: Dataset)
      modifies this
      ensures trace == old(trace) + [DbUpdateIndexColumn(datasetId, column)]
      ensures ok <==> !Fails(replies, |old(trace)|)
      ensures dataset == replies.updated
    {
      ok := Send(DbUpdateIndexColumn(datasetId, column));
      dataset := replies.updated;
    }
  }
}

/**
 * The resumable source pipeline. Every awaited effect may fail before or after it took
 * hold, and a failed vector call may have been applied to any part of its ids, so the
 * states at the method exits are the states a crash at any point can leave behind.
 */
module Pipeline {
  import opened Common
  import opened JobStore
  import opened Tables

  const MAX_CHUNKS_PER_SOURCE := 500

  datatype Plan = Plan(start: nat, end: nat, remaining: nat)

  /** The half-open range of chunks to process now, from a checkpoint and a budget, both clamped. */
  function PlanBatch(chunkCount: nat, nextSeq: int, budget: int): (p: Plan)
    ensures p.start <= p.end <= chunkCount && p.remaining == chunkCount - p.end
    ensures p.start == if nextSeq < 0 then 0 else if nextSeq > chunkCount then chunkCount else nextSeq
    ensures p.end - p.start <= if budget <= 0 then 0 else budget
    ensures p.remaining > 0 && budget > 0 ==> p.end - p.start == budget
    ensures p.start == p.end ==> budget <= 0 || p.start == chunkCount
  {
    var start := if nextSeq < 0 then 0 else if nextSeq < chunkCount then nextSeq else chunkCount;
    var end := if budget <= 0 then start else if start + budget < chunkCount then start + budget else chunkCount;
    Plan(start, end, chunkCount - end)
  }

  /** `Crashed` is the worker dying; the other three are exceptions the job handler sees. */
  datatype Failure = Retryable | Permanent | JobCancelled | Crashed

  datatype Outcome = Finished(processed: nat, remaining: nat) | Threw(failure: Failure)

  /** The batch `plan` is stored, indexed and checkpointed; nothing below it was touched. */
  ghost predicate Committed(d0: Db, d1: Db, sid: int, facts: seq<seq<Fact>>, plan: Plan) {
    && plan.start <= plan.end <= |facts|
    && Kept(d1, sid, plan.start) == Kept(d0, sid, plan.start)
    && Batch(d1, sid, facts, plan.start, plan.end)
    && Checkpoint(d1, sid) == if plan.remaining > 0 then plan.end else 0
  }

  /** What one call of `ingestSource` may do to the store, for each way it can end. */
  ghost predicate Attempt(d0: Db, d1: Db, sid: int, facts: seq<seq<Fact>>, budget: int, r: Outcome) {
    var plan := PlanBatch(|facts|, Checkpoint(d0, sid), budget);
    match r
    case Finished(processed, remaining) =>
      && processed == plan.end - plan.start && remaining == plan.remaining
      && (if processed == 0 then d1 == d0 else Committed(d0, d1, sid, facts, plan))
    case Threw(_) =>
      if plan.start == plan.end then d1 == d0
      else
        || (Kept(d1, sid, plan.start) == Kept(d0, sid, plan.start) && Checkpoint(d1, sid) == Checkpoint(d0, sid))
        || Committed(d0, d1, sid, facts, plan)
  }

  /** The job row of a run that won its claim: still `processing`, or settled behind its back. */
  ghost predicate HeldOrSettled(row: Option<JobRow>) {
    Settled(row) || row.value.status.Processing?
  }

  /** Chunks `from .. i` of the current batch are stored and indexed, and nothing lies beyond. */
  ghost predicate Batch(d: Db, sid: int, facts: seq<seq<Fact>>, from: nat, i: nat)
    requires i <= |facts|
  {
    && (forall q :: from <= q < i ==> Holds(d, sid, q, facts[q]) && Indexed(d, sid, q))
    && TailEmpty(d, sid, i)
  }

  /** The old edges are still there, and the others are one for each witness among `rows`. */
  ghost predicate NewEdges(d0: Db, d1: Db, rows: set<int>, witnesses: seq<int>) {
    && (forall e :: e in d0.edges ==> e in d1.edges && d1.edges[e] == d0.edges[e])
    && (forall e :: e in d1.edges && e !in d0.edges ==>
          d1.edges[e].Some? && d1.edges[e].value in rows && d1.edges[e].value in witnesses)
    && (forall k :: 0 <= k < |witnesses| && witnesses[k] in rows ==>
          exists e :: e in d1.edges && e !in d0.edges && d1.edges[e] == Some(witnesses[k]))
  }

  lemma NewEdgesSnoc(d0: Db, d1: Db, rows: set<int>, witnesses: seq<int>, k: nat, id: int)
    requires k < |witnesses| && NewEdges(d0, d1, rows, witnesses[..k])
    requires witnesses[k] in rows && id !in d1.edges && id !in d0.edges
    ensures NewEdges(d0, AddEdge(d1, id, witnesses[k]), rows, witnesses[..k + 1])
  {
    var d2, upto := AddEdge(d1, id, witnesses[k]), witnesses[..k + 1];
    forall j | 0 <= j < |upto| && upto[j] in rows
      ensures exists e :: e in d2.edges && e !in d0.edges && d2.edges[e] == Some(upto[j])
    {
      if j < k {
        assert witnesses[..k][j] == witnesses[j];
        var e :| e in d1.edges && e !in d0.edges && d1.edges[e] == Some(witnesses[j]);
        assert e in d2.edges;
      } else {
        assert id in d2.edges;
      }
    }
    assert witnesses[..k + 1][k] == witnesses[k];
    assert forall m :: m in witnesses[..k] ==> m in witnesses[..k + 1];
  }

  class Store {
    /** The rows, changed one statement at a time. */
    var db: Db
    /** The next serial id. */
    var serial: int
    /** How many awaited calls have failed so far. */
    ghost var faults: nat
    /** Whether the reply of a checkpoint write that went through always arrives. */
    const reliable: bool

    ghost predicate Valid()
      reads this`db, this`serial
    {
      Consistent(db) && Bounded(db, serial)
    }

    constructor (reliable: bool)
      ensures Valid() && db == Db(map[], map[], {}, map[], {}, map[]) && this.reliable == reliable && faults == 0
    {
      this.reliable := reliable;
      faults := 0;
      db, serial := Db(map[], map[], {}, map[], {}, map[]), 0;
    }

    /** Any awaited call may fail. */
    method Succeeds() returns (ok: bool)
      modifies this`faults
      ensures faults == if ok then old(faults) else old(faults) + 1
    {
      ok := *;
      faults := if ok then faults else faults + 1;
    }

    /**
     * The mid-source heartbeat, throttled to when it is `due`; a refused write is how a
     * cancellation is noticed, and a failed one is ignored.
     */
    method Heartbeat(jobs: JobTable, jobId: string, due: bool, now: int) returns (cancelled: bool)
      requires HeldOrSettled(jobs.Row(jobId))
      modifies jobs, this`faults
      ensures old(faults) <= faults
      ensures due && faults == old(faults) ==> (cancelled <==> Settled(jobs.Row(jobId)))
      ensures due && faults == old(faults) && !cancelled ==> jobs.Row(jobId) == Some(JobRow(Processing, Some(now)))
      ensures HeldOrSettled(jobs.Row(jobId)) && (old(Settled(jobs.Row(jobId))) ==> Settled(jobs.Row(jobId)))
      ensures cancelled ==> Settled(jobs.Row(jobId))
    {
      jobs.Interfere(jobId);
      if !due {
        return false;
      }
      var ok := Succeeds();
      if !ok {
        return false;
      }
      var applied := jobs.UpdateJobStatus(jobId, Processing, now);
      return !applied;
    }

    /**
     * Deletes what chunks of `sid` at or after `from` left behind, in the order edges,
     * vectors, memories, chunks.
     */
    method PurgeSourceArtifacts(sid: int, from: nat) returns (ok: bool)
      requires Valid() && Checkpoint(db, sid) <= from
      modifies this
      ensures Valid() && db.nextSeq == old(db).nextSeq
      ensures Kept(db, sid, from) == Kept(old(db), sid, from)
      ensures ok ==> TailEmpty(db, sid, from)
      ensures old(faults) <= faults && (!ok ==> old(faults) < faults)
      ensures forall c :: c in db.chunks ==> c in old(db).chunks && db.chunks[c] == old(db).chunks[c]
    {
      var chunkIds := TailChunks(db, sid, from);
      ok := Succeeds();
      if !ok {
        return;
      }
      if chunkIds == {} {
        assert forall c :: c in db.chunks && InTail(db.chunks[c], sid, from) ==> c in chunkIds;
        return true;
      }
      var memoryIds := LinkedTo(db, chunkIds);
      if memoryIds != {} {
        ok := PurgeMemories(sid, from, memoryIds);
        if !ok {
          return;
        }
      }
      DeleteChunksKeeps(db, sid, from);
      db := DeleteChunks(db, chunkIds);
      ok := Succeeds();
    }

    method PurgeMemories(sid: int, from: nat, memoryIds: set<int>) returns (ok: bool)
      requires Valid() && Checkpoint(db, sid) <= from
      requires memoryIds == LinkedTo(db, TailChunks(db, sid, from))
      modifies this
      ensures Valid() && db.nextSeq == old(db).nextSeq && db.chunks == old(db).chunks
      ensures Kept(db, sid, from) == Kept(old(db), sid, from)
      ensures ok ==> LinkedTo(db, TailChunks(db, sid, from)) == {}
      ensures old(faults) <= faults && (!ok ==> old(faults) < faults)
    {
      DeleteEdgesKeeps(db, sid, from);
      db := DeleteEdges(db, memoryIds);
      ok := Succeeds();
      if !ok {
        return;
      }
      var deleted: set<int> := *;
      deleted := deleted * memoryIds;
      DeleteVectorsKeeps(db, sid, from, deleted);
      db := DeleteVectors(db, deleted);
      if deleted != memoryIds {
        faults := faults + 1;
        return false;
      }
      ok := Succeeds();
      if !ok {
        return;
      }
      DeleteMemoriesKeeps(db, sid, from);
      db := DeleteMemories(db, memoryIds);
      ok := Succeeds();
    }

    /** One transaction for the window's chunk, memory and junction rows, then the vectors. */
    method PersistPreparedWindow(sid: int, facts: seq<seq<Fact>>, i: nat, j: nat, ghost from: nat, ghost limit: nat)
      returns (ok: bool)
      requires Valid() && from <= i <= j <= |facts| && j - i <= limit
      requires Checkpoint(db, sid) <= from && Batch(db, sid, facts, from, i)
      modifies this
      ensures Valid() && db.nextSeq == old(db).nextSeq && TailEmpty(db, sid, j)
      ensures Kept(db, sid, from) == Kept(old(db), sid, from)
      ensures ok ==> Batch(db, sid, facts, from, j)
      ensures old(faults) <= faults && (!ok ==> old(faults) < faults)
    {
      ok := Succeeds();
      if !ok {
        return;
      }
      InsertWindow(sid, facts, i, j, from);
      ok := Succeeds();
      if !ok {
        return;
      }
      var inserted := LinkedTo(db, TailChunks(db, sid, i));
      var upserted: set<int> := *;
      upserted := upserted * inserted;
      TailsNest(db, sid, from, i);
      AddVectorsKeeps(db, sid, from, upserted);
      ghost var t := db;
      db := AddVectors(db, upserted);
      if upserted != inserted {
        faults := faults + 1;
        return false;
      }
      forall q | from <= q < j ensures Holds(db, sid, q, facts[q]) && Indexed(db, sid, q) {
        HoldsWithoutEdges(t, db, sid, q, facts[q]);
        IndexedWindow(t, db, sid, i, q);
      }
      ok := Succeeds();
    }

    /** The committed transaction: a row for every chunk of the window that yielded facts. */
    method InsertWindow(sid: int, facts: seq<seq<Fact>>, i: nat, j: nat, ghost from: nat)
      requires Valid() && from <= i <= j <= |facts|
      requires Checkpoint(db, sid) <= from && Batch(db, sid, facts, from, i)
      modifies this
      ensures Valid() && db.nextSeq == old(db).nextSeq && TailEmpty(db, sid, j)
      ensures Kept(db, sid, from) == Kept(old(db), sid, from)
      ensures forall q :: from <= q < j ==> Holds(db, sid, q, facts[q])
      ensures forall q :: from <= q < i ==> Indexed(db, sid, q)
      ensures faults == old(faults)
    {
      hide Kept, Consistent, Stored, Indexed;
      var t, id := db, serial;
      for q := i to j
        invariant Consistent(t) && Bounded(t, id) && TailEmpty(t, sid, q) && t.nextSeq == db.nextSeq
        invariant Kept(t, sid, from) == Kept(db, sid, from)
        invariant Kept(t, sid, i) == Kept(db, sid, i)
        invariant forall p :: i <= p < q ==> Holds(t, sid, p, facts[p])
        invariant db == old(db) && faults == old(faults)
      {
        if facts[q] != [] {
          AddChunkKeeps(t, sid, q, facts[q], id, from);
          AddChunkKeepsRows(t, sid, q, facts[q], id, i);
          AddChunkKeepsRows(t, sid, q, facts[q], id, q);
          forall p | i <= p < q ensures Holds(AddChunk(t, sid, q, facts[q], id), sid, p, facts[p]) {
            KeptHolds(t, AddChunk(t, sid, q, facts[q], id), sid, q, sid, p, facts[p]);
          }
          t, id := AddChunk(t, sid, q, facts[q], id), id + |facts[q]| + 1;
        }
      }
      forall p | from <= p < i ensures Holds(t, sid, p, facts[p]) && Indexed(t, sid, p) {
        KeptHolds(db, t, sid, i, sid, p, facts[p]);
        KeptIndexed(db, t, sid, i, sid, p);
      }
      db, serial := t, id;
    }

    /**
     * Stage 8: one new edge for every witness that is a memory persisted for the batch; the
     * edges there were stay.
     */
    method CreateEdges(sid: int, facts: seq<seq<Fact>>, from: nat, ghost end: nat, witnesses: seq<int>)
      returns (ok: bool)
      requires Valid() && from <= end <= |facts|
      requires Batch(db, sid, facts, from, end)
      modifies this
      ensures Valid() && db.nextSeq == old(db).nextSeq
      ensures Kept(db, sid, from) == Kept(old(db), sid, from)
      ensures Batch(db, sid, facts, from, end)
      ensures old(faults) <= faults && (!ok ==> old(faults) < faults)
      ensures NewEdges(old(db), db, LinkedTo(old(db), TailChunks(old(db), sid, from)), witnesses)
    {
      hide Consistent, Kept, Stored;
      ghost var rows := LinkedTo(db, TailChunks(db, sid, from));
      var k := 0;
      while k < |witnesses|
        invariant Valid() && db == old(db).(edges := db.edges)
        invariant Kept(db, sid, from) == Kept(old(db), sid, from) && faults == old(faults)
        invariant k <= |witnesses| && NewEdges(old(db), db, rows, witnesses[..k])
      {
        assert witnesses[..k + 1][k] == witnesses[k];
        if witnesses[k] in LinkedTo(db, TailChunks(db, sid, from)) {
          AddEdgeKeeps(db, sid, from, serial, witnesses[k]);
          NewEdgesSnoc(old(db), db, rows, witnesses, k, serial);
          db, serial := AddEdge(db, serial, witnesses[k]), serial + 1;
        }
        k := k + 1;
      }
      assert witnesses[..|witnesses|] == witnesses;
      forall q | from <= q < end ensures Holds(db, sid, q, facts[q]) {
        HoldsWithoutEdges(old(db), db, sid, q, facts[q]);
      }
      ok := Succeeds();
    }

    /** Advances the checkpoint to the end of the batch, or drops it after the last batch. */
    method AdvanceCheckpoint(sid: int, facts: seq<seq<Fact>>, plan: Plan) returns (ok: bool)
      requires Valid() && plan.start <= plan.end <= |facts| && Checkpoint(db, sid) == plan.start
      requires Batch(db, sid, facts, plan.start, plan.end)
      modifies this
      ensures Valid() && Committed(old(db), db, sid, facts, plan)
      ensures reliable ==> ok
      ensures old(faults) <= faults && (!ok ==> old(faults) < faults)
    {
      WriteCheckpointKeeps(db, sid, plan.start, plan.end, plan.remaining);
      forall q | plan.start <= q < plan.end
        ensures Holds(WriteCheckpoint(db, sid, plan.end, plan.remaining), sid, q, facts[q])
      {
        HoldsWithoutEdges(db, WriteCheckpoint(db, sid, plan.end, plan.remaining), sid, q, facts[q]);
      }
      db := WriteCheckpoint(db, sid, plan.end, plan.remaining);
      ok := Succeeds();
      ok := ok || reliable;
    }

    /** Extracts, normalises and stores the batch window by window, with a heartbeat before each. */
    method PersistWindows(sid: int, facts: seq<seq<Fact>>, plan: Plan, concurrency: nat, jobs: JobTable, jobId: string)
      returns (ok: bool, cancelled: bool)
      requires Valid() && concurrency > 0 && HeldOrSettled(jobs.Row(jobId))
      requires plan.start <= plan.end <= |facts| && Checkpoint(db, sid) <= plan.start && TailEmpty(db, sid, plan.start)
      modifies this, jobs
      ensures Valid() && db.nextSeq == old(db).nextSeq && TailEmpty(db, sid, plan.end)
      ensures Kept(db, sid, plan.start) == Kept(old(db), sid, plan.start)
      ensures HeldOrSettled(jobs.Row(jobId)) && (old(Settled(jobs.Row(jobId))) ==> Settled(jobs.Row(jobId)))
      ensures cancelled ==> !ok && Settled(jobs.Row(jobId))
      ensures ok ==> Batch(db, sid, facts, plan.start, plan.end)
      ensures old(faults) <= faults && (!ok && !cancelled ==> old(faults) < faults)
    {
      hide Kept, Consistent, Holds, Indexed;
      var i := plan.start;
      while i < plan.end
        invariant plan.start <= i <= plan.end && old(faults) <= faults
        invariant Valid() && db.nextSeq == old(db).nextSeq && Batch(db, sid, facts, plan.start, i)
        invariant Kept(db, sid, plan.start) == Kept(old(db), sid, plan.start)
        invariant HeldOrSettled(jobs.Row(jobId)) && (old(Settled(jobs.Row(jobId))) ==> Settled(jobs.Row(jobId)))
      {
        var due: bool, now: int := *, *;
        cancelled := Heartbeat(jobs, jobId, due, now);
        if cancelled {
          return false, true;
        }
        ok := Succeeds();
        if !ok {
          return false, false; // extraction or embedding of some chunk of the window failed
        }
        var j := if i + concurrency < plan.end then i + concurrency else plan.end;
        ok := PersistPreparedWindow(sid, facts, i, j, plan.start, concurrency);
        if !ok {
          return false, false;
        }
        i := j;
      }
      return true, false;
    }

    /**
     * One ingestion attempt over chunks `0 .. |facts|`, where chunk `q` yields `facts[q]`
     * once extraction, normalisation and embedding succeed. A checkpoint at or past the last
     * chunk, as after a source was cut into fewer chunks, leaves nothing to do: the attempt
     * reports the source done and purges none of its rows.
     */
    method IngestSource(sid: int, facts: seq<seq<Fact>>, budget: int, concurrency: nat, jobs: JobTable, jobId: string)
      returns (r: Outcome)
      requires Valid() && concurrency > 0 && HeldOrSettled(jobs.Row(jobId))
      modifies this, jobs
      ensures Valid() && (TailEmpty(old(db), sid, |facts|) ==> TailEmpty(db, sid, |facts|))
      ensures Attempt(old(db), db, sid, facts, budget, r)
      ensures HeldOrSettled(jobs.Row(jobId)) && (old(Settled(jobs.Row(jobId))) ==> Settled(jobs.Row(jobId)))
      ensures r == Threw(JobCancelled) ==> Settled(jobs.Row(jobId))
      ensures |facts| > 500 ==> r.Threw? && db == old(db)
      ensures Checkpoint(old(db), sid) >= |facts| ==> db == old(db) && (r.Finished? ==> r == Finished(0, 0))
      ensures reliable && r.Threw? ==> Checkpoint(db, sid) == Checkpoint(old(db), sid)
      ensures old(faults) <= faults
      ensures r.Threw? ==> old(faults) < faults || |facts| > 500 || r == Threw(JobCancelled)
      ensures |facts| > 500 && faults == old(faults) ==> r == Threw(Permanent)
    {
      hide Kept, Consistent, Holds, Indexed, NewEdges, TailChunks, LinkedTo;
      var failure := AnyFailure();
      var ok := Succeeds();
      if !ok {
        return Threw(failure); // loading failed, or the content type is unknown
      }
      if |facts| > MAX_CHUNKS_PER_SOURCE {
        return Threw(Permanent);
      }
      var plan := PlanBatch(|facts|, Checkpoint(db, sid), budget);
      if plan.start == plan.end {
        return Finished(0, plan.remaining);
      }
      ok := PurgeSourceArtifacts(sid, plan.start);
      if !ok {
        return Threw(failure);
      }
      var cancelled;
      ok, cancelled := PersistWindows(sid, facts, plan, concurrency, jobs, jobId);
      if cancelled {
        return Threw(JobCancelled);
      }
      if !ok {
        return Threw(failure);
      }
      var witnesses: seq<int> := *;
      ok := CreateEdges(sid, facts, plan.start, plan.end, witnesses);
      if !ok {
        return Threw(failure);
      }
      ok := AdvanceCheckpoint(sid, facts, plan);
      if !ok {
        return Threw(failure); // the write went through but its reply was lost
      }
      return Finished(plan.end - plan.start, plan.remaining);
    }
  }

  /** Any way a provider or database call can fail, other than a cancellation. */
  method AnyFailure() returns (f: Failure)
    ensures f != JobCancelled
  {
    if * {
      f := Retryable;
    } else if * {
      f := Permanent;
    } else {
      f := Crashed;
    }
  }

  /** What a chunk holds is independent of edges, vectors and checkpoints. */
  lemma HoldsWithoutEdges(d: Db, e: Db, sid: int, q: nat, facts: seq<Fact>)
    requires e.chunks == d.chunks && e.memories == d.memories && e.links == d.links
    requires Holds(d, sid, q, facts)
    ensures Holds(e, sid, q, facts)
  {
    if facts != [] {
      var c, ids :| Stored(d, c, ids, sid, q, facts);
      assert Stored(e, c, ids, sid, q, facts);
    }
  }

  lemma TailsNest(d: Db, sid: int, from: nat, i: nat)
    requires from <= i
    ensures LinkedTo(d, TailChunks(d, sid, i)) <= LinkedTo(d, TailChunks(d, sid, from))
  {
    assert forall c :: c in TailChunks(d, sid, i) ==> InTail(d.chunks[c], sid, i) && c in TailChunks(d, sid, from);
  }

  lemma IndexedWindow(t: Db, d: Db, sid: int, i: nat, q: nat)
    requires d == AddVectors(t, LinkedTo(t, TailChunks(t, sid, i)))
    requires q < i ==> Indexed(t, sid, q)
    ensures Indexed(d, sid, q)
  {
    forall l | l in d.links && l.0 in d.chunks && d.chunks[l.0] == Chunk(sid, q) ensures l.1 in d.vectors {
      if q >= i {
        assert InTail(t.chunks[l.0], sid, i);
        assert l.0 in TailChunks(t, sid, i);
      }
    }
  }
}

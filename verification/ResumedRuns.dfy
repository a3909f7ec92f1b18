/**
 * Whole histories of one source: any interleaving of failed, crashed, partial and final
 * attempts under any budgets. A history is judged only by the attempt relation that
 * `Store.IngestSource` is proved to keep.
 */
module ResumedRuns {
  import opened Tables
  import opened Pipeline

  /** One attempt: its budget, what each chunk yielded this time, and how it ended. */
  datatype Event = Event(budget: int, facts: seq<seq<Fact>>, outcome: Outcome)

  ghost predicate History(ds: seq<Db>, evs: seq<Event>, sid: int, n: nat) {
    && |ds| == |evs| + 1
    && (forall k :: 0 <= k < |ds| ==> Consistent(ds[k]) && TailEmpty(ds[k], sid, n))
    && (forall k :: 0 <= k < |evs| ==>
          |evs[k].facts| == n && Attempt(ds[k], ds[k + 1], sid, evs[k].facts, evs[k].budget, evs[k].outcome))
  }

  /** The checkpoint covers exactly the chunks whose committed facts `log` lists. */
  ghost predicate Progress(d: Db, sid: int, log: seq<seq<Fact>>, n: nat) {
    && Consistent(d) && TailEmpty(d, sid, n)
    && Checkpoint(d, sid) == |log| <= n
    && (forall q :: 0 <= q < |log| ==> Holds(d, sid, q, log[q]))
  }

  /** One committed batch: the attempt that committed it, and its chunks `start .. end`. */
  datatype Span = Span(attempt: nat, start: nat, end: nat)

  function Ends(spans: seq<Span>): nat {
    if spans == [] then 0 else spans[|spans| - 1].end
  }

  /** The span is the whole plan of its attempt, and `log` has what its chunks yielded then. */
  ghost predicate Whole(s: Span, log: seq<seq<Fact>>, ds: seq<Db>, evs: seq<Event>, sid: int, n: nat) {
    && s.attempt < |evs| && s.attempt < |ds| && s.start < s.end <= |log|
    && (var e := evs[s.attempt];
        var plan := PlanBatch(n, Checkpoint(ds[s.attempt], sid), e.budget);
        && s.start == plan.start && s.end == plan.end && |e.facts| == n && n >= |log|
        && (forall q :: s.start <= q < s.end ==> log[q] == e.facts[q]))
  }

  /** The spans follow one another without a gap, in the order of their attempts. */
  ghost predicate Chained(spans: seq<Span>) {
    && (spans != [] ==> spans[0].start == 0)
    && (forall i, j :: 0 <= i < j < |spans| && j == i + 1 ==> spans[j].start == spans[i].end)
    && (forall i, j :: 0 <= i < j < |spans| ==> spans[i].attempt < spans[j].attempt)
  }

  /** `spans` cut `log` into the batches it was committed in. */
  ghost predicate Tiled(spans: seq<Span>, log: seq<seq<Fact>>, ds: seq<Db>, evs: seq<Event>, sid: int, n: nat) {
    && Ends(spans) == |log| && Chained(spans)
    && (forall i :: 0 <= i < |spans| ==> Whole(spans[i], log, ds, evs, sid, n))
  }

  predicate IsFinal(e: Event) {
    e.outcome.Finished? && e.outcome.remaining == 0
  }

  /** What is committed below the checkpoint stays stored and indexed while the kept rows are left alone. */
  lemma CommittedBelow(d0: Db, d1: Db, sid: int, from: nat, log: seq<seq<Fact>>, q: nat)
    requires Consistent(d0) && Checkpoint(d0, sid) == from == |log| && q < from
    requires Kept(d0, sid, from) == Kept(d1, sid, from) && Holds(d0, sid, q, log[q])
    ensures Holds(d1, sid, q, log[q]) && Indexed(d1, sid, q)
  {
    hide Holds, Kept;
    assert Indexed(d0, sid, q);
    KeptHolds(d0, d1, sid, from, sid, q, log[q]);
    KeptIndexed(d0, d1, sid, from, sid, q);
  }

  lemma CommittedExtends(d0: Db, d1: Db, sid: int, e: Event, log: seq<seq<Fact>>, n: nat)
    requires Progress(d0, sid, log, n) && |e.facts| == n && Consistent(d1) && TailEmpty(d1, sid, n)
    requires var plan := PlanBatch(n, Checkpoint(d0, sid), e.budget); Committed(d0, d1, sid, e.facts, plan)
    ensures var end := PlanBatch(n, |log|, e.budget).end;
            var next := log + e.facts[|log|..end];
            && |log| <= end == |next|
            && (forall q :: 0 <= q < |next| ==> Holds(d1, sid, q, next[q]) && Indexed(d1, sid, q))
            && (end < n ==> Progress(d1, sid, next, n))
            && (end == n ==> Progress(d1, sid, [], n) && Complete(d1, sid, next))
  {
    var plan := PlanBatch(n, |log|, e.budget);
    var next := log + e.facts[|log|..plan.end];
    forall q | 0 <= q < |next| ensures Holds(d1, sid, q, next[q]) && Indexed(d1, sid, q) {
      if q < |log| {
        CommittedBelow(d0, d1, sid, plan.start, log, q);
      } else {
        assert next[q] == e.facts[q];
      }
    }
  }

  /**
   * One more attempt either leaves the committed prefix as it was, extends it, or completes
   * the source; no outcome loses or mixes a committed chunk.
   */
  lemma AttemptKeepsProgress(d0: Db, d1: Db, sid: int, e: Event, log: seq<seq<Fact>>, n: nat)
    returns (next: seq<seq<Fact>>)
    requires Progress(d0, sid, log, n) && |e.facts| == n && Consistent(d1) && TailEmpty(d1, sid, n)
    requires Attempt(d0, d1, sid, e.facts, e.budget, e.outcome)
    ensures Progress(d1, sid, next, n)
    ensures next == log || next == [] || next == log + e.facts[|log|..PlanBatch(n, |log|, e.budget).end]
    ensures IsFinal(e) ==> Complete(d1, sid, log + e.facts[|log|..])
  {
    var plan := PlanBatch(n, |log|, e.budget);
    if plan.start < plan.end && Committed(d0, d1, sid, e.facts, plan) {
      CommittedExtends(d0, d1, sid, e, log, n);
      next := if plan.end < n then log + e.facts[|log|..plan.end] else [];
      assert e.facts[|log|..n] == e.facts[|log|..];
    } else {
      next := log;
      forall q | 0 <= q < |log| ensures Holds(d1, sid, q, log[q]) {
        KeptHolds(d0, d1, sid, plan.start, sid, q, log[q]);
      }
      if IsFinal(e) {
        assert log + e.facts[|log|..] == log;
        forall q | 0 <= q < n ensures Indexed(d1, sid, q) {
        }
      }
    }
  }

  lemma {:induction false} HistoryKeepsProgress(ds: seq<Db>, evs: seq<Event>, sid: int, n: nat)
    returns (log: seq<seq<Fact>>, spans: seq<Span>)
    requires History(ds, evs, sid, n) && Progress(ds[0], sid, [], n)
    ensures Progress(ds[|evs|], sid, log, n) && Tiled(spans, log, ds, evs, sid, n)
  {
    if evs == [] {
      log, spans := [], [];
    } else {
      var m := |evs| - 1;
      var before, sofar := HistoryKeepsProgress(ds[..|evs|], evs[..m], sid, n);
      log := AttemptKeepsProgress(ds[m], ds[m + 1], sid, evs[m], before, n);
      if log == [] {
        spans := [];
      } else {
        spans := OneMore(sofar, before, log, ds, evs, sid, n);
      }
    }
  }

  /** A batch committed earlier stays one when the history and the log grow. */
  lemma WholeStays(s: Span, before: seq<seq<Fact>>, log: seq<seq<Fact>>, ds: seq<Db>, evs: seq<Event>,
                   sid: int, n: nat)
    requires |ds| == |evs| + 1 && evs != [] && before <= log && |log| <= n
    requires Whole(s, before, ds[..|evs|], evs[..|evs| - 1], sid, n)
    ensures Whole(s, log, ds, evs, sid, n) && s.attempt < |evs| - 1
  {
  }

  /** The last attempt of a history adds its batch as one more span, if it committed one. */
  lemma OneMore(spans: seq<Span>, before: seq<seq<Fact>>, log: seq<seq<Fact>>, ds: seq<Db>, evs: seq<Event>,
                sid: int, n: nat)
    returns (next: seq<Span>)
    requires |ds| == |evs| + 1 && evs != []
    requires var m := |evs| - 1;
             && Tiled(spans, before, ds[..|evs|], evs[..m], sid, n)
             && Checkpoint(ds[m], sid) == |before| <= n && |evs[m].facts| == n
             && (log == before || log == before + evs[m].facts[|before|..PlanBatch(n, |before|, evs[m].budget).end])
    ensures Tiled(next, log, ds, evs, sid, n)
  {
    var m := |evs| - 1;
    forall i | 0 <= i < |spans| ensures Whole(spans[i], log, ds, evs, sid, n) && spans[i].attempt < m {
      WholeStays(spans[i], before, log, ds, evs, sid, n);
    }
    next := spans;
    if log != before {
      var plan := PlanBatch(n, |before|, evs[m].budget);
      var last := Span(m, plan.start, plan.end);
      assert Whole(last, log, ds, evs, sid, n);
      next := spans + [last];
      hide Whole;
    }
  }

  /**
   * Whenever a source's last batch lands, after any history of crashes, retries and budgets,
   * the store holds exactly one row per chunk that yielded facts, each with exactly the
   * facts of one attempt, all of them indexed, and nothing else for that source. The chunks
   * of a batch have their facts from one and the same attempt.
   */
  lemma CompletionIsExact(ds: seq<Db>, evs: seq<Event>, sid: int, n: nat)
    returns (log: seq<seq<Fact>>, spans: seq<Span>)
    requires History(ds, evs, sid, n) && Progress(ds[0], sid, [], n)
    requires evs != [] && IsFinal(evs[|evs| - 1])
    ensures |log| == n && Complete(ds[|evs|], sid, log) && Tiled(spans, log, ds, evs, sid, n)
  {
    hide Complete, Tiled, Consistent, TailEmpty, Holds, Kept, Batch;
    var m := |evs| - 1;
    var before, sofar := HistoryKeepsProgress(ds[..|evs|], evs[..m], sid, n);
    var _ := AttemptKeepsProgress(ds[m], ds[m + 1], sid, evs[m], before, n);
    log := before + evs[m].facts[|before|..];
    assert evs[m].facts[|before|..] == evs[m].facts[|before|..n];
    spans := OneMore(sofar, before, log, ds, evs, sid, n);
  }

  /** The memory rows with content `f` that chunk `q` of `sid` cites. */
  ghost function Rows(d: Db, sid: int, q: nat, f: Fact): set<int> {
    set l | l in d.links && l.0 in d.chunks && d.chunks[l.0] == Chunk(sid, q)
            && l.1 in d.memories && d.memories[l.1] == f :: l.1
  }

  ghost function Picked(ids: seq<int>, facts: seq<Fact>, f: Fact): set<int>
    requires |ids| == |facts|
  {
    set k | 0 <= k < |ids| && facts[k] == f :: ids[k]
  }

  lemma {:induction false} PickedCount(ids: seq<int>, facts: seq<Fact>, f: Fact)
    requires |ids| == |facts| && forall j, k :: 0 <= j < k < |ids| ==> ids[j] != ids[k]
    ensures |Picked(ids, facts, f)| == multiset(facts)[f]
  {
    if ids != [] {
      var m := |ids| - 1;
      PickedCount(ids[..m], facts[..m], f);
      assert facts == facts[..m] + [facts[m]];
      var rest := Picked(ids[..m], facts[..m], f);
      assert forall k :: 0 <= k < m ==> ids[..m][k] == ids[k] && facts[..m][k] == facts[k];
      assert ids[m] !in rest;
      assert Picked(ids, facts, f) == if facts[m] == f then rest + {ids[m]} else rest;
    }
  }

  lemma StoredCounts(d: Db, c: int, ids: seq<int>, sid: int, q: nat, facts: seq<Fact>, f: Fact)
    requires SequencesDistinct(d) && Stored(d, c, ids, sid, q, facts)
    ensures |Rows(d, sid, q, f)| == multiset(facts)[f]
  {
    PickedCount(ids, facts, f);
    forall m | m in Picked(ids, facts, f) ensures m in Rows(d, sid, q, f) {
      assert (c, m) in d.links;
    }
    forall m | m in Rows(d, sid, q, f) ensures m in Picked(ids, facts, f) {
      var l :| l in d.links && l.0 in d.chunks && d.chunks[l.0] == Chunk(sid, q) && l.1 == m;
      assert l.0 == c;
    }
    assert Rows(d, sid, q, f) == Picked(ids, facts, f);
  }

  /** A complete store cites each fact of each chunk exactly as often as the chunk yielded it. */
  lemma CompleteCounts(d: Db, sid: int, facts: seq<seq<Fact>>, q: nat, f: Fact)
    requires SequencesDistinct(d) && Complete(d, sid, facts)
    ensures |Rows(d, sid, q, f)| == if q < |facts| then multiset(facts[q])[f] else 0
  {
    if q < |facts| && facts[q] != [] {
      assert Holds(d, sid, q, facts[q]);
      var c, ids :| Stored(d, c, ids, sid, q, facts[q]);
      StoredCounts(d, c, ids, sid, q, facts[q], f);
    } else {
      assert q < |facts| ==> Holds(d, sid, q, facts[q]);
      forall c | c in d.chunks ensures d.chunks[c] != Chunk(sid, q) {
        assert q >= |facts| ==> !InTail(d.chunks[c], sid, |facts|);
      }
    }
  }

  /* ---- an attempt that nothing interrupts ---- */

  lemma {:induction false} StoreChunks(d: Db, id: int, sid: int, facts: seq<seq<Fact>>, from: nat, to: nat)
    returns (e: Db, next: int)
    requires Consistent(d) && Bounded(d, id) && Checkpoint(d, sid) <= from && TailEmpty(d, sid, from)
    requires from <= to <= |facts|
    ensures Consistent(e) && Bounded(e, next) && TailEmpty(e, sid, to) && e.nextSeq == d.nextSeq
    ensures Kept(e, sid, from) == Kept(d, sid, from)
    ensures forall q :: from <= q < to ==> Holds(e, sid, q, facts[q])
  {
    hide Kept, Consistent, Stored;
    e, next := d, id;
    if from < to {
      var last := to - 1;
      var e0, id0 := StoreChunks(d, id, sid, facts, from, last);
      e, next := e0, id0;
      if facts[last] != [] {
        AddChunkKeeps(e0, sid, last, facts[last], id0, from);
        AddChunkKeepsRows(e0, sid, last, facts[last], id0, last);
        e, next := AddChunk(e0, sid, last, facts[last], id0), id0 + |facts[last]| + 1;
        forall q | from <= q < last ensures Holds(e, sid, q, facts[q]) {
          KeptHolds(e0, e, sid, last, sid, q, facts[q]);
        }
      }
    }
  }

  /** On a store without rows past the checkpoint such an attempt commits its batch. */
  lemma Uninterrupted(d: Db, id: int, sid: int, facts: seq<seq<Fact>>, budget: nat) returns (e: Db, next: int)
    requires Consistent(d) && Bounded(d, id) && Checkpoint(d, sid) < |facts| && budget > 0
    requires TailEmpty(d, sid, Checkpoint(d, sid))
    ensures var plan := PlanBatch(|facts|, Checkpoint(d, sid), budget);
            && Attempt(d, e, sid, facts, budget, Finished(plan.end - plan.start, plan.remaining))
            && Consistent(e) && Bounded(e, next) && TailEmpty(e, sid, plan.end)
            && Checkpoint(e, sid) == if plan.remaining > 0 then plan.end else 0
  {
    hide Kept, Consistent, Holds, Indexed;
    var plan := PlanBatch(|facts|, Checkpoint(d, sid), budget);
    var rows;
    rows, next := StoreChunks(d, id, sid, facts, plan.start, plan.end);
    var ms := LinkedTo(rows, TailChunks(rows, sid, plan.start));
    AddVectorsKeeps(rows, sid, plan.start, ms);
    var indexed := AddVectors(rows, ms);
    forall q | plan.start <= q < plan.end ensures Holds(indexed, sid, q, facts[q]) && Indexed(indexed, sid, q) {
      HoldsWithoutEdges(rows, indexed, sid, q, facts[q]);
      IndexedWindow(rows, indexed, sid, plan.start, q);
    }
    WriteCheckpointKeeps(indexed, sid, plan.start, plan.end, plan.remaining);
    e := WriteCheckpoint(indexed, sid, plan.end, plan.remaining);
    forall q | plan.start <= q < plan.end ensures Holds(e, sid, q, facts[q]) && Indexed(e, sid, q) {
      HoldsWithoutEdges(indexed, e, sid, q, facts[q]);
      SameIndex(indexed, e, sid, q);
    }
  }

  lemma SameIndex(d: Db, e: Db, sid: int, q: nat)
    requires e.chunks == d.chunks && e.links == d.links && e.vectors == d.vectors && Indexed(d, sid, q)
    ensures Indexed(e, sid, q)
  {
  }

  /* ---- the plans of successive batches tile the source ---- */

  function Plans(n: nat, nextSeq: nat, budgets: seq<int>): (ps: seq<Plan>)
    requires nextSeq <= n
    ensures |ps| == |budgets|
    decreases |budgets|
  {
    if budgets == [] then []
    else
      var p := PlanBatch(n, nextSeq, budgets[0]);
      [p] + Plans(n, p.end, budgets[1..])
  }

  predicate Covers(p: Plan, q: nat) {
    p.start <= q < p.end
  }

  function Positive(budgets: seq<int>): nat {
    if budgets == [] then 0 else (if budgets[0] > 0 then budgets[0] else 0) + Positive(budgets[1..])
  }

  /**
   * Successive batches cover every chunk from the checkpoint up to the last end, each once;
   * the end is the source's last chunk exactly when the budgets add up to what was left.
   */
  lemma {:induction false} PlansTile(n: nat, nextSeq: nat, budgets: seq<int>, q: nat)
    requires nextSeq <= n && budgets != []
    ensures var ps := Plans(n, nextSeq, budgets);
            var end := ps[|ps| - 1].end;
            && nextSeq <= end <= n
            && (nextSeq <= q < end <==> exists k :: 0 <= k < |ps| && Covers(ps[k], q))
            && (forall j, k :: 0 <= j < k < |ps| && Covers(ps[j], q) ==> !Covers(ps[k], q))
            && (end == n <==> Positive(budgets) >= n - nextSeq)
    decreases |budgets|
  {
    var ps := Plans(n, nextSeq, budgets);
    var p := PlanBatch(n, nextSeq, budgets[0]);
    assert ps[0] == p && ps[1..] == Plans(n, p.end, budgets[1..]);
    if |budgets| == 1 {
      assert Covers(ps[0], q) <==> nextSeq <= q < p.end;
    } else {
      PlansTile(n, p.end, budgets[1..], q);
      var rest := Plans(n, p.end, budgets[1..]);
      assert forall k :: 1 <= k < |ps| ==> ps[k] == rest[k - 1];
      if exists k :: 0 <= k < |rest| && Covers(rest[k], q) {
        var k :| 0 <= k < |rest| && Covers(rest[k], q);
        assert Covers(ps[k + 1], q);
      }
      assert Covers(ps[0], q) <==> nextSeq <= q < p.end;
    }
  }
}

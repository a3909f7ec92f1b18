/**
 * Batched lookups against the vector backend, and the batched duplicate hints of ingestion:
 * each must give what the single lookups would have given.
 */
module Batching {
  import opened Common
  import opened VectorPort

  /** The backend's answer to one search body; a batch answers its bodies in order. */
  type Backend = Query -> seq<Match>

  function AboveFloor(matches: seq<Match>, minScore: Option<real>): seq<Match> {
    if matches == [] then []
    else
      var last := matches[|matches| - 1];
      AboveFloor(matches[..|matches| - 1], minScore)
      + if minScore.Some? && last.score < minScore.value then [] else [last]
  }

  predicate IsActive(q: Query) {
    q.vector != [] && q.topK > 0
  }

  predicate Passes(m: Match, minScore: Option<real>) {
    minScore.Some? ==> m.score >= minScore.value
  }

  /** `at` lists, in increasing order, exactly the positions whose match passes, and `out` is what is there. */
  ghost predicate Selects(matches: seq<Match>, minScore: Option<real>, at: seq<nat>, out: seq<Match>) {
    && |at| == |out|
    && (forall j, k :: 0 <= j < k < |at| ==> at[j] < at[k])
    && (forall k :: 0 <= k < |at| ==> at[k] < |matches| && out[k] == matches[at[k]])
    && (forall i :: 0 <= i < |matches| ==> (i in at <==> Passes(matches[i], minScore)))
  }

  lemma SelectsSnoc(init: seq<Match>, m: Match, minScore: Option<real>, at: seq<nat>, out: seq<Match>)
    requires Selects(init, minScore, at, out)
    ensures if Passes(m, minScore) then Selects(init + [m], minScore, at + [|init|], out + [m])
            else Selects(init + [m], minScore, at, out)
  {
    hide Passes;
    var n, all := |init|, init + [m];
    assert n !in at by {
      assert forall k :: 0 <= k < |at| ==> at[k] < n;
    }
    assert forall i :: 0 <= i < n ==> all[i] == init[i];
    if Passes(m, minScore) {
      InAppended(at, n);
    }
  }

  lemma InAppended(at: seq<nat>, n: nat)
    ensures forall i :: i in at + [n] <==> i in at || i == n
  {
    assert (at + [n])[|at|] == n;
  }

  /** Filtering selects exactly the matches at or above the floor, in their order. */
  lemma {:induction false} AboveFloorSelects(matches: seq<Match>, minScore: Option<real>) returns (at: seq<nat>)
    ensures Selects(matches, minScore, at, AboveFloor(matches, minScore))
  {
    hide Selects;
    if matches == [] {
      at := [];
      SelectsNone(minScore);
    } else {
      var n := |matches| - 1;
      var init := AboveFloorSelects(matches[..n], minScore);
      SelectsSnoc(matches[..n], matches[n], minScore, init, AboveFloor(matches[..n], minScore));
      assert matches[..n] + [matches[n]] == matches;
      assert AboveFloor(matches[..n], minScore) + [] == AboveFloor(matches[..n], minScore);
      at := if Passes(matches[n], minScore) then init + [n] else init;
    }
  }

  lemma SelectsNone(minScore: Option<real>)
    ensures Selects([], minScore, [], [])
  {
  }

  /** What a single lookup returns. */
  function Nearest(backend: Backend, q: Query): seq<Match> {
    if !IsActive(q) then [] else AboveFloor(backend(q), q.minScore)
  }

  method KeepAboveFloor(matches: seq<Match>, minScore: Option<real>) returns (out: seq<Match>)
    ensures out == AboveFloor(matches, minScore)
  {
    out := [];
    for i := 0 to |matches|
      invariant out == AboveFloor(matches[..i], minScore)
    {
      assert matches[..i + 1][..i] == matches[..i];
      if minScore.Some? && matches[i].score < minScore.value {
        continue;
      }
      out := out + [matches[i]];
    }
    assert matches[..|matches|] == matches;
  }

  method QueryNearest(backend: Backend, q: Query) returns (out: seq<Match>)
    ensures out == Nearest(backend, q)
  {
    if q.vector == [] || q.topK <= 0 {
      return [];
    }
    out := KeepAboveFloor(backend(q), q.minScore);
  }

  /** How many of the first `n` searches take part in the batch. */
  function Rank(searches: seq<Query>, n: nat): nat
    requires n <= |searches|
  {
    if n == 0 then 0 else Rank(searches, n - 1) + if IsActive(searches[n - 1]) then 1 else 0
  }

  ghost predicate ActiveIndexes(searches: seq<Query>, active: seq<nat>) {
    && |active| == Rank(searches, |searches|)
    && (forall k :: 0 <= k < |active| ==> active[k] < |searches| && IsActive(searches[active[k]]))
    && (forall i :: 0 <= i < |searches| && IsActive(searches[i]) ==> RankIs(searches, active, i))
    && (forall j, k :: 0 <= j < k < |active| ==> active[j] < active[k])
  }

  ghost predicate RankIs(searches: seq<Query>, active: seq<nat>, i: nat)
    requires i < |searches|
  {
    Rank(searches, i) < |active| && active[Rank(searches, i)] == i
  }

  method CollectActive(searches: seq<Query>) returns (active: seq<nat>)
    ensures ActiveIndexes(searches, active)
  {
    active := [];
    for i := 0 to |searches|
      invariant |active| == Rank(searches, i)
      invariant forall k :: 0 <= k < |active| ==> active[k] < i && IsActive(searches[active[k]])
      invariant forall j :: 0 <= j < i && IsActive(searches[j]) ==> RankIs(searches, active, j)
      invariant forall j, k :: 0 <= j < k < |active| ==> active[j] < active[k]
    {
      if IsActive(searches[i]) {
        active := active + [i];
      }
    }
  }

  /** What result list `k` gives search `i`. */
  function ResultOf(searches: seq<Query>, results: seq<seq<Match>>, i: nat, k: nat): seq<Match>
    requires i < |searches|
  {
    if k < |results| then AboveFloor(results[k], searches[i].minScore) else []
  }

  function ResultAt(searches: seq<Query>, results: seq<seq<Match>>, i: nat): seq<Match>
    requires i < |searches|
  {
    if IsActive(searches[i]) then ResultOf(searches, results, i, Rank(searches, i)) else []
  }

  /**
   * One request for all searches that need one, its results put back in place. A result
   * list shorter than the request reads as no matches for the searches it leaves out.
   */
  method ScatterResults(searches: seq<Query>, active: seq<nat>, results: seq<seq<Match>>) returns (out: seq<seq<Match>>)
    requires ActiveIndexes(searches, active)
    ensures |out| == |searches| && forall i :: 0 <= i < |searches| ==> out[i] == ResultAt(searches, results, i)
  {
    hide AboveFloor, Rank;
    out := seq(|searches|, _ => []);
    for r := 0 to |active|
      invariant |out| == |searches|
      invariant forall k :: 0 <= k < r ==> out[active[k]] == ResultOf(searches, results, active[k], k)
      invariant forall i :: 0 <= i < |searches| && (forall k :: 0 <= k < r ==> active[k] != i) ==> out[i] == []
    {
      var found := [];
      if r < |results| {
        found := KeepAboveFloor(results[r], searches[active[r]].minScore);
      }
      out := out[active[r] := found];
    }
    forall i | 0 <= i < |searches| ensures out[i] == ResultAt(searches, results, i) {
      if IsActive(searches[i]) {
        assert RankIs(searches, active, i);
      } else {
        assert forall k :: 0 <= k < |active| ==> active[k] != i;
      }
    }
  }

  /** Batching is transparent: the results are those of the single lookups, search by search. */
  method QueryNearestMany(backend: Backend, searches: seq<Query>) returns (out: seq<seq<Match>>)
    ensures |out| == |searches|
    ensures forall i :: 0 <= i < |searches| ==> out[i] == Nearest(backend, searches[i])
  {
    var active := CollectActive(searches);
    var results := seq(|active|, k requires 0 <= k < |active| => backend(searches[active[k]]));
    out := ScatterResults(searches, active, results);
    forall i | 0 <= i < |searches| ensures out[i] == Nearest(backend, searches[i]) {
      if IsActive(searches[i]) {
        assert RankIs(searches, active, i);
      }
    }
  }

  /** The adapter's own work on a batch: every list of the response, filtered, in order. */
  method FilterResults(results: seq<seq<Match>>, minScore: Option<real>) returns (out: seq<seq<Match>>)
    ensures |out| == |results| && forall i :: 0 <= i < |results| ==> out[i] == AboveFloor(results[i], minScore)
  {
    out := [];
    for i := 0 to |results|
      invariant |out| == i && forall k :: 0 <= k < i ==> out[k] == AboveFloor(results[k], minScore)
    {
      var matches := KeepAboveFloor(results[i], minScore);
      out := out + [matches];
    }
  }

  /** What one search of a batch with common options gives; unlike a single lookup, it sends empty vectors too. */
  function BatchEntry(backend: Backend, q: Query): seq<Match> {
    if q.topK <= 0 then [] else AboveFloor(backend(q), q.minScore)
  }

  method QueryNearestBatch(backend: Backend, vectors: seq<Vector>, org: int, space: int, topK: int,
                           minScore: Option<real>) returns (out: seq<seq<Match>>)
    ensures |out| == |vectors|
    ensures forall i :: 0 <= i < |vectors| ==>
              var q := Query(vectors[i], org, space, topK, minScore);
              out[i] == BatchEntry(backend, q) && (vectors[i] != [] ==> out[i] == Nearest(backend, q))
  {
    if topK <= 0 {
      return seq(|vectors|, _ => []);
    }
    var results := seq(|vectors|, i requires 0 <= i < |vectors| =>
      backend(Query(vectors[i], org, space, topK, minScore)));
    out := FilterResults(results, minScore);
  }

  /** The entry is the single lookup's on every backend if and only if the vector is non-empty or the limit is zero. */
  lemma BatchIsSingleIff(q: Query)
    ensures (forall backend: Backend :: BatchEntry(backend, q) == Nearest(backend, q))
            <==> q.vector != [] || q.topK <= 0
  {
    if q.vector == [] && q.topK > 0 {
      EmptyVectorDiffers(q);
    }
  }

  /** The failing input: an empty vector, with any backend that answers it. */
  lemma EmptyVectorDiffers(q: Query)
    requires q.vector == [] && q.topK > 0
    ensures exists backend: Backend :: BatchEntry(backend, q) != Nearest(backend, q)
  {
    var m := Match(0, if q.minScore.Some? then q.minScore.value else 0.0);
    var backend: Backend := _ => [m];
    assert AboveFloor([m], q.minScore) == [m] by {
      assert [m][..0] == [];
    }
    assert BatchEntry(backend, q) == [m] && Nearest(backend, q) == [];
  }

  /* ---- hints about memories that exist already ---- */

  datatype Chunk = Chunk(sequence: int, content: string)

  /** The providers at one moment: search embedding, nearest ids, and the contents of live memories. */
  datatype Services = Services(
    embed: string -> Vector,
    nearest: Vector -> seq<int>,
    contents: map<int, string>)

  function Contents(known: map<int, string>, ids: seq<int>): seq<string> {
    if ids == [] then []
    else
      var last := ids[|ids| - 1];
      Contents(known, ids[..|ids| - 1]) + if last in known then [known[last]] else []
  }

  ghost predicate Hydrated(known: map<int, string>, ids: seq<int>, out: seq<string>, at: seq<nat>) {
    && Ascending(at, |ids|) && |at| == |out|
    && (forall i :: 0 <= i < |ids| ==> (i in at <==> ids[i] in known))
    && (forall k :: 0 <= k < |at| ==> ids[at[k]] in known && out[k] == known[ids[at[k]]])
  }

  lemma HydratedSnoc(known: map<int, string>, ids: seq<int>, out: seq<string>, at: seq<nat>)
    requires ids != [] && Hydrated(known, ids[..|ids| - 1], out, at)
    ensures ids[|ids| - 1] !in known ==> Hydrated(known, ids, out, at)
    ensures ids[|ids| - 1] in known ==> Hydrated(known, ids, out + [known[ids[|ids| - 1]]], at + [|ids| - 1])
  {
    var n := |ids| - 1;
    AscendingSnoc(at, n);
    hide Ascending;
    assert forall i :: 0 <= i < n ==> ids[..n][i] == ids[i];
  }

  /** Hydration gives, in order, the contents of exactly the ids that are known. */
  lemma {:induction false} ContentsSelect(known: map<int, string>, ids: seq<int>) returns (at: seq<nat>)
    ensures Hydrated(known, ids, Contents(known, ids), at)
    decreases |ids|
  {
    if ids == [] {
      at := [];
    } else {
      var n := |ids| - 1;
      at := ContentsSelect(known, ids[..n]);
      HydratedSnoc(known, ids, Contents(known, ids[..n]), at);
      hide Hydrated;
      assert Contents(known, ids[..n]) + [] == Contents(known, ids[..n]);
      at := if ids[n] in known then at + [n] else at;
    }
  }

  /** The lookup a chunk would do on its own. */
  function Hint(s: Services, c: Chunk): seq<string> {
    Contents(s.contents, s.nearest(s.embed(c.content)))
  }

  predicate DistinctSequences(chunks: seq<Chunk>) {
    forall j, k :: 0 <= j < k < |chunks| ==> chunks[j].sequence != chunks[k].sequence
  }

  /** Hydration restricted to the ids of the batch finds what hydration of all would. */
  lemma {:induction false} HydratingIsEnough(known: map<int, string>, wanted: set<int>, ids: seq<int>)
    requires forall i :: 0 <= i < |ids| ==> ids[i] in wanted
    ensures Contents(map id | id in wanted && id in known :: known[id], ids) == Contents(known, ids)
    decreases |ids|
  {
    if ids != [] {
      HydratingIsEnough(known, wanted, ids[..|ids| - 1]);
    }
  }

  ghost predicate Handed(hints: map<int, seq<string>>, s: Services, chunks: seq<Chunk>, succeeds: bool) {
    && (forall key :: key in hints ==> exists k :: 0 <= k < |chunks| && chunks[k].sequence == key)
    && (forall k :: 0 <= k < |chunks| ==>
          && chunks[k].sequence in hints
          && hints[chunks[k].sequence] == if succeeds then Hint(s, chunks[k]) else [])
  }

  lemma HandOne(hints: map<int, seq<string>>, s: Services, chunks: seq<Chunk>, k: nat)
    requires DistinctSequences(chunks) && k < |chunks| && Handed(hints, s, chunks[..k], true)
    ensures Handed(hints[chunks[k].sequence := Hint(s, chunks[k])], s, chunks[..k + 1], true)
  {
    hide Hint;
    var more, upto := hints[chunks[k].sequence := Hint(s, chunks[k])], chunks[..k + 1];
    assert upto[k] == chunks[k] && forall j :: 0 <= j < k ==> upto[j] == chunks[..k][j];
    forall key | key in more ensures exists j :: 0 <= j < |upto| && upto[j].sequence == key {
      if key == chunks[k].sequence {
        assert upto[k].sequence == key;
      } else {
        var j :| 0 <= j < k && chunks[..k][j].sequence == key;
        assert upto[j].sequence == key;
      }
    }
  }

  /** One batch: embed all, search all, hydrate the union of the ids, hand out by chunk. */
  method LookUpBatch(s: Services, chunks: seq<Chunk>) returns (hints: map<int, seq<string>>)
    requires DistinctSequences(chunks)
    ensures Handed(hints, s, chunks, true)
  {
    hide Handed, Contents;
    var matchLists := seq(|chunks|, k requires 0 <= k < |chunks| => s.nearest(s.embed(chunks[k].content)));
    var ids := set k, i | 0 <= k < |matchLists| && 0 <= i < |matchLists[k]| :: matchLists[k][i];
    var hydrated := map id | id in ids && id in s.contents :: s.contents[id];
    hints := map[];
    NothingHanded(s, chunks);
    for k := 0 to |chunks|
      invariant Handed(hints, s, chunks[..k], true)
    {
      HydratingIsEnough(s.contents, ids, matchLists[k]);
      HandOne(hints, s, chunks, k);
      hints := hints[chunks[k].sequence := Contents(hydrated, matchLists[k])];
    }
    assert chunks[..|chunks|] == chunks;
  }

  lemma NothingHanded(s: Services, chunks: seq<Chunk>)
    ensures Handed(map[], s, chunks[..0], true)
  {
  }

  /** Which lookups succeed: the whole batch, and its halves when it does not. */
  datatype Luck = Luck(whole: bool, firstHalf: bool, secondHalf: bool)

  function Middle(n: nat): nat {
    (n + 1) / 2
  }

  /** Whether chunk `k` of `n` is covered by a lookup that succeeded. */
  predicate Served(luck: Luck, n: nat, k: nat) {
    luck.whole || (n > 1 && if k < (n + 1) / 2 then luck.firstHalf else luck.secondHalf)
  }

  lemma MergedHalves(s: Services, chunks: seq<Chunk>, middle: nat, ok1: bool, ok2: bool,
                     first: map<int, seq<string>>, second: map<int, seq<string>>)
    requires DistinctSequences(chunks) && middle <= |chunks|
    requires Handed(first, s, chunks[..middle], ok1) && Handed(second, s, chunks[middle..], ok2)
    ensures forall key :: key in first + second ==> exists k :: 0 <= k < |chunks| && chunks[k].sequence == key
    ensures forall k :: 0 <= k < |chunks| ==>
              && chunks[k].sequence in first + second
              && (first + second)[chunks[k].sequence]
                 == if (if k < middle then ok1 else ok2) then Hint(s, chunks[k]) else []
  {
    forall key | key in second ensures exists m :: middle <= m < |chunks| && chunks[m].sequence == key {
      var j :| 0 <= j < |chunks[middle..]| && chunks[middle..][j].sequence == key;
      assert chunks[middle + j].sequence == key;
    }
    forall k | 0 <= k < |chunks|
      ensures chunks[k].sequence in first + second
      ensures (first + second)[chunks[k].sequence]
              == if (if k < middle then ok1 else ok2) then Hint(s, chunks[k]) else []
    {
      if k < middle {
        assert chunks[..middle][k] == chunks[k];
      } else {
        assert chunks[middle..][k - middle] == chunks[k];
      }
    }
    forall key | key in first + second ensures exists k :: 0 <= k < |chunks| && chunks[k].sequence == key {
      if key !in second {
        var j :| 0 <= j < |chunks[..middle]| && chunks[..middle][j].sequence == key;
        assert chunks[j].sequence == key;
      }
    }
  }

  /**
   * Every chunk gets an entry, and it is the chunk's own lookup exactly when its batch or
   * its half succeeded; otherwise it is empty.
   */
  method PrepareExistingMemoryHints(s: Services, chunks: seq<Chunk>, luck: Luck) returns (hints: map<int, seq<string>>)
    requires DistinctSequences(chunks)
    ensures forall key :: key in hints ==> exists k :: 0 <= k < |chunks| && chunks[k].sequence == key
    ensures forall k :: 0 <= k < |chunks| ==>
              && chunks[k].sequence in hints
              && hints[chunks[k].sequence] == if Served(luck, |chunks|, k) then Hint(s, chunks[k]) else []
  {
    if luck.whole {
      hints := LookUpBatch(s, chunks);
      return;
    }
    if |chunks| > 1 {
      var middle := Middle(|chunks|);
      var first := Half(s, chunks[..middle], luck.firstHalf);
      var second := Half(s, chunks[middle..], luck.secondHalf);
      MergedHalves(s, chunks, middle, luck.firstHalf, luck.secondHalf, first, second);
      hints := first + second;
      return;
    }
    hints := Half(s, chunks, false);
  }

  /** A lookup that may not split any further. */
  method Half(s: Services, chunks: seq<Chunk>, succeeds: bool) returns (hints: map<int, seq<string>>)
    requires DistinctSequences(chunks)
    ensures Handed(hints, s, chunks, succeeds)
  {
    if succeeds {
      hints := LookUpBatch(s, chunks);
      return;
    }
    hints := map k | 0 <= k < |chunks| :: chunks[k].sequence := [];
  }
}

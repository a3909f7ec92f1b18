/**
 * Deduplication meets resumption. The record of keys is made anew for every attempt, so a
 * repeat is dropped inside its batch and not across batches, and budgets, crashes and
 * checkpoints decide where batches begin. The chunks of a batch run concurrently, so they
 * reach the shared record in an order of their own.
 */
module BatchDedup {
  import opened Common
  import opened Tables
  import opened Pipeline
  import opened ResumedRuns
  import Normalize

  /** How text is read: the text operations and the temporal fallback. */
  datatype Text = Text(ops: Normalize.Ops, infer: string -> Option<int>)

  /** What the model answers for one chunk. */
  datatype Extraction = Extraction(raws: seq<Normalize.RawMemory>, graphs: seq<Normalize.Graph>)

  /* ---- what a chunk yields ---- */

  /** Some memory of the chunk passes every filter under this key. */
  predicate Carries(t: Text, x: Extraction, key: string) {
    key in Normalize.KeysAfter(t.ops, x.raws, {})
  }

  /** The facts left of a chunk when the keys in `seen` are on record. */
  function Yield(t: Text, x: Extraction, seen: set<string>): seq<Fact> {
    var fused := Normalize.Fused(t.ops, x.raws, |x.raws|, x.graphs, seen);
    seq(|fused|, k requires 0 <= k < |fused| =>
      Fact(Normalize.KeyOf(t.ops, fused[k]), Normalize.Filled(t.infer, fused[k])))
  }

  predicate Has(list: seq<Fact>, key: string) {
    exists k :: 0 <= k < |list| && list[k].key == key
  }

  predicate Distinct(list: seq<Fact>) {
    forall j, k :: 0 <= j < k < |list| ==> list[j].key != list[k].key
  }

  /** A chunk yields each of its keys that are not on record yet, and each of them once. */
  lemma YieldHas(t: Text, x: Extraction, seen: set<string>)
    ensures forall key :: Has(Yield(t, x, seen), key) <==> Carries(t, x, key) && key !in seen
    ensures Distinct(Yield(t, x, seen))
  {
    var list, base := Yield(t, x, seen), Normalize.Base(t.ops, x.raws, seen);
    Normalize.SurvivorsDistinct(t.ops, x.raws, seen);
    Normalize.KeysAfterIsUnion(t.ops, x.raws, seen);
    Normalize.FusedFacts(t.ops, x.raws, |x.raws|, x.graphs, seen);
    forall key ensures Has(list, key) <==> key in Normalize.KeysOf(t.ops, base) {
      if k :| 0 <= k < |base| && Normalize.KeyOf(t.ops, base[k].fact) == key {
        assert list[k].key == key;
      }
    }
  }

  /** Records that agree on a chunk's own keys leave it the same facts. */
  lemma YieldLocal(t: Text, x: Extraction, s: set<string>, u: set<string>)
    requires forall key :: Carries(t, x, key) ==> (key in s <==> key in u)
    ensures Yield(t, x, s) == Yield(t, x, u)
  {
    Normalize.FusedLocal(t.ops, x.raws, |x.raws|, x.graphs, s, u);
  }

  /* ---- what a batch yields ---- */

  predicate InRange(order: seq<nat>, n: nat) {
    forall i :: 0 <= i < |order| ==> order[i] < n
  }

  /** The chunks `a .. b`, each once, in the order in which they reach the record of keys. */
  ghost predicate Orders(order: seq<nat>, a: nat, b: nat) {
    && (forall i :: 0 <= i < |order| ==> a <= order[i] < b)
    && (forall q :: a <= q < b ==> q in order)
    && (forall i, j :: 0 <= i < j < |order| ==> order[i] != order[j])
  }

  /** The record of keys once the first `i` chunks have reached it. */
  function SeenAt(t: Text, xs: seq<Extraction>, order: seq<nat>, i: nat): set<string>
    requires i <= |order| && InRange(order, |xs|)
  {
    if i == 0 then {} else Normalize.KeysAfter(t.ops, xs[order[i - 1]].raws, SeenAt(t, xs, order, i - 1))
  }

  /** `lists` has what the chunks of the batch `a .. b` yield when they share one record in this order. */
  ghost predicate Normalised(
      t: Text, xs: seq<Extraction>, order: seq<nat>, a: nat, b: nat, lists: seq<seq<Fact>>)
  {
    && b <= |xs| == |lists| && Orders(order, a, b)
    && (forall i :: 0 <= i < |order| ==> lists[order[i]] == Yield(t, xs[order[i]], SeenAt(t, xs, order, i)))
  }

  function Contents(list: seq<Fact>): seq<Normalize.Fact> {
    seq(|list|, k requires 0 <= k < |list| => list[k].content)
  }

  /** One chunk, with a drop counter of its own. */
  method NormalizeOne(t: Text, x: Extraction, seen: Normalize.SeenKeys) returns (facts: seq<Normalize.Fact>)
    modifies seen
    ensures facts == Contents(Yield(t, x, old(seen.keys)))
    ensures seen.keys == Normalize.KeysAfter(t.ops, x.raws, old(seen.keys))
  {
    var drops := new Normalize.DropCounter();
    facts := Normalize.NormalizeChunk(t.ops, x.raws, x.graphs, t.infer, drops, seen);
    assert facts == Contents(Yield(t, x, old(seen.keys)));
  }

  /** The batch's chunks in turn, through the one shared record the attempt starts with. */
  method NormalizeBatch(t: Text, xs: seq<Extraction>, order: seq<nat>) returns (out: seq<seq<Normalize.Fact>>)
    requires InRange(order, |xs|)
    ensures |out| == |order|
    ensures forall i :: 0 <= i < |order| ==> out[i] == Contents(Yield(t, xs[order[i]], SeenAt(t, xs, order, i)))
  {
    hide Yield, Contents, Normalize.KeysAfter;
    var seen := new Normalize.SeenKeys();
    out := [];
    for i := 0 to |order|
      invariant fresh(seen) && seen.keys == SeenAt(t, xs, order, i)
      invariant |out| == i
      invariant forall j :: 0 <= j < i ==> out[j] == Contents(Yield(t, xs[order[j]], SeenAt(t, xs, order, j)))
    {
      var facts := NormalizeOne(t, xs[order[i]], seen);
      out := out + [facts];
    }
  }

  lemma {:induction false} SeenHas(t: Text, xs: seq<Extraction>, order: seq<nat>, i: nat, key: string)
    requires i <= |order| && InRange(order, |xs|)
    ensures key in SeenAt(t, xs, order, i) <==> exists j :: 0 <= j < i && Carries(t, xs[order[j]], key)
  {
    if i > 0 {
      SeenHas(t, xs, order, i - 1, key);
      Normalize.KeysAfterIsUnion(t.ops, xs[order[i - 1]].raws, SeenAt(t, xs, order, i - 1));
    }
  }

  /** Some chunk of `a .. b` carries the key. */
  ghost predicate Survives(t: Text, xs: seq<Extraction>, a: nat, b: nat, key: string) {
    exists q :: a <= q < b && q < |xs| && Carries(t, xs[q], key)
  }

  lemma {:induction false} FirstCarrier(t: Text, xs: seq<Extraction>, order: seq<nat>, n: nat, key: string)
    returns (i: nat)
    requires n < |order| && InRange(order, |xs|) && Carries(t, xs[order[n]], key)
    ensures i <= n && Carries(t, xs[order[i]], key)
    ensures forall j :: 0 <= j < i ==> !Carries(t, xs[order[j]], key)
  {
    if j :| 0 <= j < n && Carries(t, xs[order[j]], key) {
      i := FirstCarrier(t, xs, order, j, key);
    } else {
      i := n;
    }
  }

  /** What the chunk in place `i` of the order is left with. */
  lemma PlaceHas(t: Text, xs: seq<Extraction>, order: seq<nat>, i: nat, key: string)
    requires InRange(order, |xs|) && i < |order|
    ensures var list := Yield(t, xs[order[i]], SeenAt(t, xs, order, i));
            && Distinct(list)
            && (Has(list, key) <==>
                  Carries(t, xs[order[i]], key) && forall j :: 0 <= j < i ==> !Carries(t, xs[order[j]], key))
  {
    YieldHas(t, xs[order[i]], SeenAt(t, xs, order, i));
    SeenHas(t, xs, order, i, key);
  }

  /** In whatever order its chunks finish, a batch keeps each key that survives in it, in exactly one chunk. */
  lemma KeptInOneChunk(t: Text, xs: seq<Extraction>, order: seq<nat>, a: nat, b: nat, lists: seq<seq<Fact>>,
                       key: string)
    returns (q: nat)
    requires Normalised(t, xs, order, a, b, lists)
    ensures a <= q < b <==> Survives(t, xs, a, b, key)
    ensures forall p :: a <= p < b ==> Distinct(lists[p]) && (Has(lists[p], key) <==> p == q)
  {
    hide Yield, Has, Distinct, Carries, SeenAt;
    q := b;
    if p :| a <= p < b && Carries(t, xs[p], key) {
      assert p in order;
      var n :| 0 <= n < |order| && order[n] == p;
      var first := FirstCarrier(t, xs, order, n, key);
      q := order[first];
    }
    forall p | a <= p < b ensures Distinct(lists[p]) && (Has(lists[p], key) <==> p == q) {
      assert p in order;
      var i :| 0 <= i < |order| && order[i] == p;
      PlaceHas(t, xs, order, i, key);
    }
  }

  /* ---- rows by key ---- */

  /** The memory rows of chunk `q` of `sid` that were deduplicated under `key`. */
  ghost function KeyRows(d: Db, sid: int, q: nat, key: string): set<int> {
    set l | l in d.links && l.0 in d.chunks && d.chunks[l.0] == Chunk(sid, q)
            && l.1 in d.memories && d.memories[l.1].key == key :: l.1
  }

  /** How many rows the chunks `a .. b` of `sid` have under `key`. */
  ghost function Count(d: Db, sid: int, a: nat, b: nat, key: string): nat
    decreases b
  {
    if a >= b then 0 else Count(d, sid, a, b - 1, key) + |KeyRows(d, sid, b - 1, key)|
  }

  function IdsUnder(ids: seq<int>, list: seq<Fact>, key: string): set<int>
    requires |ids| == |list|
  {
    set k | 0 <= k < |ids| && list[k].key == key :: ids[k]
  }

  lemma StoredKeyRows(d: Db, c: int, ids: seq<int>, sid: int, q: nat, list: seq<Fact>, key: string)
    requires SequencesDistinct(d) && Stored(d, c, ids, sid, q, list)
    ensures KeyRows(d, sid, q, key) == IdsUnder(ids, list, key)
  {
    forall m | m in KeyRows(d, sid, q, key) ensures m in IdsUnder(ids, list, key) {
      var l :| l in d.links && l.0 in d.chunks && d.chunks[l.0] == Chunk(sid, q) && l.1 == m;
      assert l.0 == c;
      var k :| 0 <= k < |ids| && ids[k] == m;
    }
    forall k | 0 <= k < |ids| && list[k].key == key ensures ids[k] in KeyRows(d, sid, q, key) {
      assert (c, ids[k]) in d.links;
    }
  }

  lemma HoldsKeyRows(d: Db, sid: int, q: nat, list: seq<Fact>, key: string)
    requires SequencesDistinct(d) && Holds(d, sid, q, list) && Distinct(list)
    ensures |KeyRows(d, sid, q, key)| == if Has(list, key) then 1 else 0
  {
    var rows := KeyRows(d, sid, q, key);
    if list == [] {
      assert forall c :: c in d.chunks ==> d.chunks[c] != Chunk(sid, q);
      assert forall m :: m !in rows;
    } else {
      var c, ids :| Stored(d, c, ids, sid, q, list);
      StoredKeyRows(d, c, ids, sid, q, list, key);
      OneIndex(ids, list, key);
    }
  }

  lemma OneIndex(ids: seq<int>, list: seq<Fact>, key: string)
    requires |ids| == |list| && Distinct(list)
    ensures |IdsUnder(ids, list, key)| == if Has(list, key) then 1 else 0
  {
    if k :| 0 <= k < |list| && list[k].key == key {
      assert IdsUnder(ids, list, key) == {ids[k]};
    }
  }

  lemma CountNone(d: Db, sid: int, a: nat, key: string)
    ensures Count(d, sid, a, a, key) == 0
  {
  }

  lemma {:induction false} CountSplits(d: Db, sid: int, a: nat, b: nat, c: nat, key: string)
    requires a <= b <= c
    ensures Count(d, sid, a, c, key) == Count(d, sid, a, b, key) + Count(d, sid, b, c, key)
  {
    if b < c {
      CountSplits(d, sid, a, b, c - 1, key);
    }
  }

  lemma {:induction false} CountOne(d: Db, sid: int, a: nat, b: nat, key: string, q: nat)
    requires forall p :: a <= p < b ==> |KeyRows(d, sid, p, key)| == if p == q then 1 else 0
    ensures Count(d, sid, a, b, key) == if a <= q < b then 1 else 0
    decreases b
  {
    if a < b {
      CountOne(d, sid, a, b - 1, key, q);
    }
  }

  /** A stored batch has one row for each key that survives in it, and none for any other key. */
  lemma BatchCount(d: Db, sid: int, log: seq<seq<Fact>>, t: Text, xs: seq<Extraction>, order: seq<nat>,
                   a: nat, b: nat, lists: seq<seq<Fact>>, key: string)
    requires SequencesDistinct(d) && Normalised(t, xs, order, a, b, lists) && b <= |log|
    requires forall q :: a <= q < b ==> Holds(d, sid, q, log[q]) && log[q] == lists[q]
    ensures Count(d, sid, a, b, key) == if Survives(t, xs, a, b, key) then 1 else 0
  {
    hide Holds, Has, Distinct, Normalised, SequencesDistinct;
    var q := KeptInOneChunk(t, xs, order, a, b, lists, key);
    forall p | a <= p < b ensures |KeyRows(d, sid, p, key)| == if p == q then 1 else 0 {
      HoldsKeyRows(d, sid, p, log[p], key);
    }
    CountOne(d, sid, a, b, key, q);
  }

  /* ---- every history ---- */

  /** What each attempt's batch yields comes from its own extraction, in an order of its own. */
  ghost predicate Extracted(t: Text, ds: seq<Db>, evs: seq<Event>, sid: int, n: nat,
                            xss: seq<seq<Extraction>>, orders: seq<seq<nat>>)
  {
    && |ds| == |evs| + 1 && |xss| == |evs| && |orders| == |evs|
    && (forall k :: 0 <= k < |evs| ==>
          var plan := PlanBatch(n, Checkpoint(ds[k], sid), evs[k].budget);
          Normalised(t, xss[k], orders[k], plan.start, plan.end, evs[k].facts))
  }

  /** A history from a source without rows to its completion. */
  ghost predicate Resumed(t: Text, ds: seq<Db>, evs: seq<Event>, sid: int, n: nat,
                          xss: seq<seq<Extraction>>, orders: seq<seq<nat>>)
  {
    && History(ds, evs, sid, n) && Progress(ds[0], sid, [], n)
    && evs != [] && IsFinal(evs[|evs| - 1]) && Extracted(t, ds, evs, sid, n, xss, orders)
  }

  ghost predicate InBatch(t: Text, xss: seq<seq<Extraction>>, s: Span, key: string) {
    s.attempt < |xss| && Survives(t, xss[s.attempt], s.start, s.end, key)
  }

  /** In how many of the batches the key survives. */
  ghost function Batches(t: Text, xss: seq<seq<Extraction>>, spans: seq<Span>, key: string): nat {
    if spans == [] then 0
    else
      var m := |spans| - 1;
      Batches(t, xss, spans[..m], key) + if InBatch(t, xss, spans[m], key) then 1 else 0
  }

  lemma SpanCount(t: Text, ds: seq<Db>, evs: seq<Event>, sid: int, n: nat, xss: seq<seq<Extraction>>,
                  orders: seq<seq<nat>>, d: Db, log: seq<seq<Fact>>, s: Span, key: string)
    requires Extracted(t, ds, evs, sid, n, xss, orders) && Whole(s, log, ds, evs, sid, n)
    requires SequencesDistinct(d) && forall q :: 0 <= q < |log| ==> Holds(d, sid, q, log[q])
    ensures Count(d, sid, s.start, s.end, key) == if InBatch(t, xss, s, key) then 1 else 0
  {
    hide Holds, SequencesDistinct, Normalised, Survives, Count;
    var k := s.attempt;
    BatchCount(d, sid, log, t, xss[k], orders[k], s.start, s.end, evs[k].facts, key);
  }

  lemma SpanGrows(s: Span, log: seq<seq<Fact>>, ds: seq<Db>, evs: seq<Event>, sid: int, n: nat)
    requires Whole(s, log, ds, evs, sid, n)
    ensures s.start <= s.end
  {
  }

  lemma StartsAtEnd(spans: seq<Span>, i: nat)
    requires Chained(spans) && i < |spans|
    ensures spans[i].start == Ends(spans[..i])
  {
    if i == 0 {
      assert spans[..i] == [];
    } else {
      assert spans[..i][i - 1] == spans[i - 1];
    }
  }

  lemma {:induction false} SpansCount(
      t: Text, ds: seq<Db>, evs: seq<Event>, sid: int, n: nat, xss: seq<seq<Extraction>>,
      orders: seq<seq<nat>>, d: Db, log: seq<seq<Fact>>, spans: seq<Span>, m: nat, key: string)
    requires Extracted(t, ds, evs, sid, n, xss, orders) && Tiled(spans, log, ds, evs, sid, n) && m <= |spans|
    requires SequencesDistinct(d) && forall q :: 0 <= q < |log| ==> Holds(d, sid, q, log[q])
    ensures Count(d, sid, 0, Ends(spans[..m]), key) == Batches(t, xss, spans[..m], key)
  {
    hide Holds, SequencesDistinct, Extracted, InBatch, Whole, Count;
    if m == 0 {
      assert spans[..0] == [];
      CountNone(d, sid, 0, key);
    } else {
      var s := spans[m - 1];
      assert Whole(s, log, ds, evs, sid, n);
      SpansCount(t, ds, evs, sid, n, xss, orders, d, log, spans, m - 1, key);
      SpanCount(t, ds, evs, sid, n, xss, orders, d, log, s, key);
      assert spans[..m][..m - 1] == spans[..m - 1] && spans[..m][m - 1] == s;
      SpanGrows(s, log, ds, evs, sid, n);
      StartsAtEnd(spans, m - 1);
      CountSplits(d, sid, 0, s.start, s.end, key);
    }
  }

  /**
   * At completion, after any history and with any answers of the model at each attempt, each
   * committed batch has exactly one row for every key that survives in it. A source has as
   * many rows under a key as it has batches in which the key survives.
   */
  lemma KeysStoredPerBatch(t: Text, ds: seq<Db>, evs: seq<Event>, sid: int, n: nat,
                           xss: seq<seq<Extraction>>, orders: seq<seq<nat>>)
    returns (log: seq<seq<Fact>>, spans: seq<Span>)
    requires Resumed(t, ds, evs, sid, n, xss, orders)
    ensures |log| == n && Complete(ds[|evs|], sid, log) && Tiled(spans, log, ds, evs, sid, n)
    ensures forall i, key :: 0 <= i < |spans| ==>
              Count(ds[|evs|], sid, spans[i].start, spans[i].end, key)
              == if InBatch(t, xss, spans[i], key) then 1 else 0
    ensures forall key :: Count(ds[|evs|], sid, 0, n, key) == Batches(t, xss, spans, key)
  {
    log, spans := CompletionIsExact(ds, evs, sid, n);
    var d := ds[|evs|];
    hide Holds, Extracted, Count, InBatch;
    forall i, key | 0 <= i < |spans|
      ensures Count(d, sid, spans[i].start, spans[i].end, key) == if InBatch(t, xss, spans[i], key) then 1 else 0
    {
      SpanCount(t, ds, evs, sid, n, xss, orders, d, log, spans[i], key);
    }
    forall key ensures Count(d, sid, 0, n, key) == Batches(t, xss, spans, key) {
      SpansCount(t, ds, evs, sid, n, xss, orders, d, log, spans, |spans|, key);
      assert spans[..|spans|] == spans;
    }
  }

  /* ---- against one uninterrupted attempt ---- */

  /** The key survives in two of the batches. */
  ghost predicate Twice(t: Text, xss: seq<seq<Extraction>>, spans: seq<Span>, key: string) {
    exists i, j :: 0 <= i < j < |spans| && InBatch(t, xss, spans[i], key) && InBatch(t, xss, spans[j], key)
  }

  ghost predicate NoKeyTwice(t: Text, xss: seq<seq<Extraction>>, spans: seq<Span>) {
    forall key :: !Twice(t, xss, spans, key)
  }

  lemma {:induction false} SomeBatch(t: Text, xss: seq<seq<Extraction>>, spans: seq<Span>, key: string)
    ensures Batches(t, xss, spans, key) > 0 <==> exists i :: 0 <= i < |spans| && InBatch(t, xss, spans[i], key)
  {
    hide InBatch;
    if spans != [] {
      var m := |spans| - 1;
      SomeBatch(t, xss, spans[..m], key);
      assert forall i :: 0 <= i < m ==> spans[..m][i] == spans[i];
    }
  }

  lemma {:induction false} TwoBatches(t: Text, xss: seq<seq<Extraction>>, spans: seq<Span>, key: string)
    ensures Batches(t, xss, spans, key) > 1 <==> Twice(t, xss, spans, key)
  {
    hide InBatch;
    if spans != [] {
      var m := |spans| - 1;
      TwoBatches(t, xss, spans[..m], key);
      SomeBatch(t, xss, spans[..m], key);
      assert forall i :: 0 <= i < m ==> spans[..m][i] == spans[i];
    }
  }

  /** Chained batches leave no chunk out. */
  lemma {:induction false} BatchOf(spans: seq<Span>, q: nat) returns (i: nat)
    requires Chained(spans) && q < Ends(spans)
    ensures i < |spans| && spans[i].start <= q < spans[i].end
  {
    var m := |spans| - 1;
    if spans[m].start <= q {
      i := m;
    } else {
      assert spans[..m] != [];
      i := BatchOf(spans[..m], q);
    }
  }

  lemma SurvivesInBatch(t: Text, xs: seq<Extraction>, xss: seq<seq<Extraction>>, spans: seq<Span>, n: nat, key: string)
    requires Chained(spans) && Ends(spans) == n
    requires forall i :: 0 <= i < |spans| ==>
               spans[i].end <= n && spans[i].attempt < |xss| && xss[spans[i].attempt] == xs
    ensures Survives(t, xs, 0, n, key) <==> exists i :: 0 <= i < |spans| && InBatch(t, xss, spans[i], key)
  {
    if q :| 0 <= q < n && q < |xs| && Carries(t, xs[q], key) {
      var i := BatchOf(spans, q);
      assert InBatch(t, xss, spans[i], key);
    }
  }

  /** One uninterrupted attempt on a source without rows. */
  ghost predicate OneShot(t: Text, empty: Db, once: Db, sid: int, shot: Event, xs: seq<Extraction>, order: seq<nat>) {
    && Progress(empty, sid, [], |xs|) && History([empty, once], [shot], sid, |xs|)
    && shot.budget >= |xs| && IsFinal(shot) && Normalised(t, xs, order, 0, |xs|, shot.facts)
  }

  lemma OneShotIsComplete(t: Text, empty: Db, once: Db, sid: int, shot: Event, xs: seq<Extraction>, order: seq<nat>)
    requires OneShot(t, empty, once, sid, shot, xs, order)
    ensures Consistent(once) && Complete(once, sid, shot.facts)
  {
    assert [empty, once][1] == once;
    var next := AttemptKeepsProgress(empty, once, sid, shot, [], |xs|) by {
      assert [empty, once][0] == empty && [empty, once][1] == once && [shot][0] == shot;
    }
    assert [] + shot.facts[0..] == shot.facts;
  }

  /** The model answers the same for a chunk at every attempt. */
  function Constantly(xs: seq<Extraction>, n: nat): seq<seq<Extraction>> {
    seq(n, _ => xs)
  }

  lemma OnceCount(t: Text, empty: Db, once: Db, sid: int, shot: Event, xs: seq<Extraction>, order: seq<nat>,
                  key: string)
    requires OneShot(t, empty, once, sid, shot, xs, order)
    ensures Count(once, sid, 0, |xs|, key) == if Survives(t, xs, 0, |xs|, key) then 1 else 0
  {
    OneShotIsComplete(t, empty, once, sid, shot, xs, order);
    BatchCount(once, sid, shot.facts, t, xs, order, 0, |xs|, shot.facts, key);
  }

  lemma TiledByBatches(t: Text, ds: seq<Db>, evs: seq<Event>, sid: int, xs: seq<Extraction>,
                       log: seq<seq<Fact>>, spans: seq<Span>, key: string)
    requires Tiled(spans, log, ds, evs, sid, |xs|) && |log| == |xs|
    ensures Survives(t, xs, 0, |xs|, key) <==> Batches(t, Constantly(xs, |evs|), spans, key) > 0
  {
    hide InBatch, Survives, Batches;
    forall i | 0 <= i < |spans| ensures spans[i].end <= |xs| && spans[i].attempt < |evs| {
      assert Whole(spans[i], log, ds, evs, sid, |xs|);
    }
    SurvivesInBatch(t, xs, Constantly(xs, |evs|), spans, |xs|, key);
    SomeBatch(t, Constantly(xs, |evs|), spans, key);
  }

  /**
   * Against one uninterrupted attempt with the same answers, a resumed history loses no key,
   * and it stores no key more often if and only if no key survives in two of its batches.
   */
  lemma SameCountsIffNoKeyTwice(
      t: Text, ds: seq<Db>, evs: seq<Event>, sid: int, xs: seq<Extraction>, orders: seq<seq<nat>>,
      empty: Db, once: Db, shot: Event, order: seq<nat>)
    returns (log: seq<seq<Fact>>, spans: seq<Span>)
    requires Resumed(t, ds, evs, sid, |xs|, Constantly(xs, |evs|), orders)
    requires OneShot(t, empty, once, sid, shot, xs, order)
    ensures |ds| == |evs| + 1
    ensures |log| == |xs| && Complete(ds[|evs|], sid, log) && Tiled(spans, log, ds, evs, sid, |xs|)
    ensures forall key :: Count(once, sid, 0, |xs|, key) == if Survives(t, xs, 0, |xs|, key) then 1 else 0
    ensures forall key :: Count(once, sid, 0, |xs|, key) <= Count(ds[|evs|], sid, 0, |xs|, key)
    ensures (forall key :: Count(ds[|evs|], sid, 0, |xs|, key) == Count(once, sid, 0, |xs|, key))
            <==> NoKeyTwice(t, Constantly(xs, |evs|), spans)
  {
    var n, d, xss := |xs|, ds[|evs|], Constantly(xs, |evs|);
    log, spans := KeysStoredPerBatch(t, ds, evs, sid, n, xss, orders);
    hide Resumed, OneShot, Tiled, Complete, Count, Survives, Batches, Twice, Constantly;
    forall key
      ensures Count(once, sid, 0, n, key) == if Survives(t, xs, 0, n, key) then 1 else 0
      ensures Survives(t, xs, 0, n, key) <==> Batches(t, xss, spans, key) > 0
    {
      OnceCount(t, empty, once, sid, shot, xs, order, key);
      TiledByBatches(t, ds, evs, sid, xs, log, spans, key);
    }
    forall key ensures Count(d, sid, 0, n, key) == Count(once, sid, 0, n, key) <==> !Twice(t, xss, spans, key) {
      TwoBatches(t, xss, spans, key);
    }
  }

  /* ---- chunk by chunk, when chunks finish in order ---- */

  function InOrder(a: nat, b: nat): (order: seq<nat>)
    requires a <= b
    ensures |order| == b - a && forall i :: 0 <= i < |order| ==> order[i] == a + i
  {
    seq(b - a, i requires 0 <= i < b - a => a + i)
  }

  lemma InOrderSeen(t: Text, xs: seq<Extraction>, a: nat, b: nat, q: nat, key: string)
    requires a <= q < b <= |xs|
    ensures key in SeenAt(t, xs, InOrder(a, b), q - a) <==> Survives(t, xs, a, q, key)
  {
    var order := InOrder(a, b);
    SeenHas(t, xs, order, q - a, key);
    if p :| a <= p < q && Carries(t, xs[p], key) {
      assert order[p - a] == p;
    }
  }

  lemma {:induction false} BatchesOrdered(spans: seq<Span>, i: nat, j: nat)
    requires Chained(spans) && i < j < |spans|
    requires forall k :: 0 <= k < |spans| ==> spans[k].start <= spans[k].end
    ensures spans[i].end <= spans[j].start
  {
    if i + 1 < j {
      BatchesOrdered(spans, i, j - 1);
    }
  }

  lemma SurvivesSplits(t: Text, xs: seq<Extraction>, a: nat, b: nat, c: nat, key: string)
    requires a <= b <= c
    ensures Survives(t, xs, a, c, key) <==> Survives(t, xs, a, b, key) || Survives(t, xs, b, c, key)
  {
  }

  /** In its own batch a chunk yields what it does in the whole source, unless an earlier batch has one of its keys. */
  lemma SameYield(t: Text, xs: seq<Extraction>, a: nat, b: nat, q: nat)
    requires a <= q < b <= |xs|
    requires forall key :: Carries(t, xs[q], key) ==> !Survives(t, xs, 0, a, key)
    ensures Yield(t, xs[q], SeenAt(t, xs, InOrder(a, b), q - a))
            == Yield(t, xs[q], SeenAt(t, xs, InOrder(0, |xs|), q))
  {
    hide Yield, SeenAt, InOrder, Carries;
    forall key | Carries(t, xs[q], key)
      ensures key in SeenAt(t, xs, InOrder(a, b), q - a) <==> key in SeenAt(t, xs, InOrder(0, |xs|), q)
    {
      InOrderSeen(t, xs, a, b, q, key);
      InOrderSeen(t, xs, 0, |xs|, q, key);
      SurvivesSplits(t, xs, 0, a, q, key);
    }
    YieldLocal(t, xs[q], SeenAt(t, xs, InOrder(a, b), q - a), SeenAt(t, xs, InOrder(0, |xs|), q));
  }

  /** Every attempt takes the chunks of its batch in order. */
  ghost predicate AllInOrder(ds: seq<Db>, evs: seq<Event>, sid: int, n: nat, orders: seq<seq<nat>>) {
    && |ds| == |evs| + 1 && |orders| == |evs|
    && (forall k :: 0 <= k < |evs| ==>
          var plan := PlanBatch(n, Checkpoint(ds[k], sid), evs[k].budget);
          orders[k] == InOrder(plan.start, plan.end))
  }

  /** Batch `i` of the log, with what its attempt normalised. */
  lemma BatchLists(t: Text, ds: seq<Db>, evs: seq<Event>, sid: int, xs: seq<Extraction>, orders: seq<seq<nat>>,
                   log: seq<seq<Fact>>, spans: seq<Span>, i: nat)
    returns (s: Span, lists: seq<seq<Fact>>, order: seq<nat>)
    requires Extracted(t, ds, evs, sid, |xs|, Constantly(xs, |evs|), orders)
    requires Tiled(spans, log, ds, evs, sid, |xs|) && i < |spans|
    ensures s == spans[i] && s.start < s.end <= |log| && |log| <= |xs|
    ensures Normalised(t, xs, order, s.start, s.end, lists)
    ensures forall q :: s.start <= q < s.end ==> log[q] == lists[q]
    ensures AllInOrder(ds, evs, sid, |xs|, orders) ==> order == InOrder(s.start, s.end)
  {
    s := spans[i];
    assert Whole(s, log, ds, evs, sid, |xs|);
    lists, order := evs[s.attempt].facts, orders[s.attempt];
    hide Normalised;
  }

  /** No key twice: then chunk `q` of batch `i` holds what it yields in the whole source. */
  lemma SameChunk(t: Text, ds: seq<Db>, evs: seq<Event>, sid: int, xs: seq<Extraction>, orders: seq<seq<nat>>,
                  log: seq<seq<Fact>>, spans: seq<Span>, q: nat)
    requires Extracted(t, ds, evs, sid, |xs|, Constantly(xs, |evs|), orders)
    requires AllInOrder(ds, evs, sid, |xs|, orders)
    requires Tiled(spans, log, ds, evs, sid, |xs|) && q < |log|
    requires NoKeyTwice(t, Constantly(xs, |evs|), spans)
    ensures log[q] == Yield(t, xs[q], SeenAt(t, xs, InOrder(0, |xs|), q))
  {
    hide Yield, Carries, SeenAt, Extracted, AllInOrder, Twice, Constantly;
    var i := BatchOf(spans, q);
    var s, lists, order := BatchLists(t, ds, evs, sid, xs, orders, log, spans, i);
    assert order[q - s.start] == q;
    forall key | Carries(t, xs[q], key) ensures !Survives(t, xs, 0, s.start, key) {
      if p :| 0 <= p < s.start && Carries(t, xs[p], key) {
        EarlierBatch(t, ds, evs, sid, xs, log, spans, i, p, q, key);
      }
    }
    SameYield(t, xs, s.start, s.end, q);
  }

  /** A key of batch `i` carried by a chunk before that batch survives in two batches. */
  lemma EarlierBatch(t: Text, ds: seq<Db>, evs: seq<Event>, sid: int, xs: seq<Extraction>,
                     log: seq<seq<Fact>>, spans: seq<Span>, i: nat, p: nat, q: nat, key: string)
    requires Tiled(spans, log, ds, evs, sid, |xs|) && i < |spans|
    requires p < spans[i].start <= q < spans[i].end <= |xs|
    requires Carries(t, xs[p], key) && Carries(t, xs[q], key)
    ensures Twice(t, Constantly(xs, |evs|), spans, key)
  {
    var xss := Constantly(xs, |evs|);
    forall k | 0 <= k < |spans| ensures spans[k].start <= spans[k].end <= |log| && spans[k].attempt < |evs| {
      assert Whole(spans[k], log, ds, evs, sid, |xs|);
    }
    EndsLast(spans, i);
    var j := BatchOf(spans, p);
    assert InBatch(t, xss, spans[j], key) && InBatch(t, xss, spans[i], key);
    if i < j {
      BatchesOrdered(spans, i, j);
    }
  }

  lemma EndsLast(spans: seq<Span>, i: nat)
    requires Chained(spans) && i < |spans|
    requires forall k :: 0 <= k < |spans| ==> spans[k].start <= spans[k].end
    ensures spans[i].end <= Ends(spans)
  {
    if i < |spans| - 1 {
      BatchesOrdered(spans, i, |spans| - 1);
    }
  }

  /** A key that survives in two batches leaves a fact in a chunk that has none under it in the one attempt. */
  lemma ExtraFact(t: Text, ds: seq<Db>, evs: seq<Event>, sid: int, xs: seq<Extraction>, orders: seq<seq<nat>>,
                  log: seq<seq<Fact>>, spans: seq<Span>, lists: seq<seq<Fact>>, key: string)
    returns (q: nat)
    requires Extracted(t, ds, evs, sid, |xs|, Constantly(xs, |evs|), orders)
    requires Tiled(spans, log, ds, evs, sid, |xs|) && |log| == |xs|
    requires Normalised(t, xs, InOrder(0, |xs|), 0, |xs|, lists)
    requires Twice(t, Constantly(xs, |evs|), spans, key)
    ensures q < |log| && Has(log[q], key) && !Has(lists[q], key)
  {
    hide Yield, Carries, Has, Distinct, SeenAt, Extracted, Whole, Constantly;
    var i, j := TwoCarriers(t, xs, evs, spans, key);
    var r, _, _ := BatchLists(t, ds, evs, sid, xs, orders, log, spans, i);
    var s, own, order := BatchLists(t, ds, evs, sid, xs, orders, log, spans, j);
    forall k | 0 <= k < |spans| ensures spans[k].start <= spans[k].end {
      SpanGrows(spans[k], log, ds, evs, sid, |xs|);
    }
    BatchesOrdered(spans, i, j);
    q := KeptInOneChunk(t, xs, order, s.start, s.end, own, key);
    var p :| r.start <= p < r.end && p < |xs| && Carries(t, xs[p], key);
    PlaceHas(t, xs, InOrder(0, |xs|), q, key);
    assert InOrder(0, |xs|)[p] == p && InOrder(0, |xs|)[q] == q;
  }

  lemma TwoCarriers(t: Text, xs: seq<Extraction>, evs: seq<Event>, spans: seq<Span>, key: string)
    returns (i: nat, j: nat)
    requires Twice(t, Constantly(xs, |evs|), spans, key)
    ensures i < j < |spans|
    ensures Survives(t, xs, spans[i].start, spans[i].end, key) && Survives(t, xs, spans[j].start, spans[j].end, key)
  {
    var xss := Constantly(xs, |evs|);
    i, j :| 0 <= i < j < |spans| && InBatch(t, xss, spans[i], key) && InBatch(t, xss, spans[j], key);
  }

  ghost predicate SameRows(d: Db, e: Db, sid: int) {
    forall q: nat, f :: |Rows(d, sid, q, f)| == |Rows(e, sid, q, f)|
  }

  lemma SameListsSameRows(d: Db, e: Db, sid: int, facts: seq<seq<Fact>>)
    requires SequencesDistinct(d) && SequencesDistinct(e) && Complete(d, sid, facts) && Complete(e, sid, facts)
    ensures SameRows(d, e, sid)
  {
    forall q: nat, f ensures |Rows(d, sid, q, f)| == |Rows(e, sid, q, f)| {
      CompleteCounts(d, sid, facts, q, f);
      CompleteCounts(e, sid, facts, q, f);
    }
  }

  lemma OtherKeyOtherRows(d: Db, e: Db, sid: int, a: seq<seq<Fact>>, b: seq<seq<Fact>>, q: nat, key: string)
    requires SequencesDistinct(d) && SequencesDistinct(e) && Complete(d, sid, a) && Complete(e, sid, b)
    requires q < |a| && q < |b| && Has(a[q], key) && !Has(b[q], key)
    ensures !SameRows(d, e, sid)
  {
    var k :| 0 <= k < |a[q]| && a[q][k].key == key;
    CompleteCounts(d, sid, a, q, a[q][k]);
    CompleteCounts(e, sid, b, q, a[q][k]);
    assert a[q][k] in multiset(a[q]);
    assert a[q][k] !in b[q];
  }

  /**
   * Resumable ingestion refines one-shot ingestion exactly as far as deduplication allows.
   * With the same answers of the model and chunks finishing in order, a history cut up by
   * crashes and budgets ends with as many rows of every content in every chunk as a single
   * uninterrupted attempt, if and only if no key survives in two of its batches.
   */
  lemma ResumableRefinesOneShot(
      t: Text, ds: seq<Db>, evs: seq<Event>, sid: int, xs: seq<Extraction>, orders: seq<seq<nat>>,
      empty: Db, once: Db, shot: Event)
    returns (log: seq<seq<Fact>>, spans: seq<Span>)
    requires Resumed(t, ds, evs, sid, |xs|, Constantly(xs, |evs|), orders)
    requires AllInOrder(ds, evs, sid, |xs|, orders)
    requires OneShot(t, empty, once, sid, shot, xs, InOrder(0, |xs|))
    ensures |ds| == |evs| + 1
    ensures |log| == |xs| && Complete(ds[|evs|], sid, log) && Tiled(spans, log, ds, evs, sid, |xs|)
    ensures SameRows(ds[|evs|], once, sid) <==> NoKeyTwice(t, Constantly(xs, |evs|), spans)
  {
    var n, d := |xs|, ds[|evs|];
    log, spans := CompletionIsExact(ds, evs, sid, n);
    OneShotIsComplete(t, empty, once, sid, shot, xs, InOrder(0, n));
    assert Consistent(d);
    assert SequencesDistinct(d) && SequencesDistinct(once);
    assert Normalised(t, xs, InOrder(0, n), 0, n, shot.facts);
    hide Complete, Consistent, SequencesDistinct, Resumed, History, OneShot, Extracted, Tiled, AllInOrder;
    hide Yield, SeenAt, Twice, Constantly;
    if NoKeyTwice(t, Constantly(xs, |evs|), spans) {
      forall q | 0 <= q < n ensures log[q] == shot.facts[q] {
        SameChunk(t, ds, evs, sid, xs, orders, log, spans, q);
        assert shot.facts[InOrder(0, n)[q]] == Yield(t, xs[InOrder(0, n)[q]], SeenAt(t, xs, InOrder(0, n), q));
      }
      assert log == shot.facts;
      SameListsSameRows(d, once, sid, log);
    } else {
      var key :| Twice(t, Constantly(xs, |evs|), spans, key);
      var q := ExtraFact(t, ds, evs, sid, xs, orders, log, spans, shot.facts, key);
      OtherKeyOtherRows(d, once, sid, log, shot.facts, q, key);
    }
  }

  /* ---- the failing input ---- */

  lemma {:induction false} BatchesBound(t: Text, xss: seq<seq<Extraction>>, spans: seq<Span>, key: string)
    ensures Batches(t, xss, spans, key) <= |spans|
  {
    if spans != [] {
      BatchesBound(t, xss, spans[..|spans| - 1], key);
    }
  }

  lemma {:induction false} AttemptsGrow(spans: seq<Span>, i: nat)
    requires Chained(spans) && i < |spans|
    ensures i <= spans[i].attempt
  {
    if i > 0 {
      AttemptsGrow(spans, i - 1);
    }
  }

  /** Budgets of one chunk each: every batch is one chunk. */
  lemma UnitBatches(ds: seq<Db>, evs: seq<Event>, sid: int, log: seq<seq<Fact>>, spans: seq<Span>)
    requires Tiled(spans, log, ds, evs, sid, 2) && |log| == 2 && |evs| == 2
    requires evs[0].budget == 1 && evs[1].budget == 1
    ensures |spans| == 2 && spans[0].start == 0 && spans[0].end == 1 && spans[1].start == 1 && spans[1].end == 2
  {
    forall i | 0 <= i < |spans| ensures spans[i].end == spans[i].start + 1 && spans[i].attempt < 2 {
      assert Whole(spans[i], log, ds, evs, sid, 2);
    }
    AttemptsGrow(spans, |spans| - 1);
    assert |spans| == 2;
  }

  /**
   * Two chunks that extract the same fact: one attempt over both stores it once, two
   * attempts with a budget of one chunk each store it twice.
   */
  lemma SplitStoresRepeat(
      t: Text, ds: seq<Db>, evs: seq<Event>, sid: int, x: Extraction, y: Extraction, orders: seq<seq<nat>>,
      empty: Db, once: Db, shot: Event, order: seq<nat>, key: string)
    requires Carries(t, x, key) && Carries(t, y, key)
    requires Resumed(t, ds, evs, sid, 2, Constantly([x, y], 2), orders) && |evs| == 2
    requires evs[0].budget == 1 && evs[1].budget == 1
    requires OneShot(t, empty, once, sid, shot, [x, y], order)
    ensures |ds| == 3
    ensures Count(once, sid, 0, 2, key) == 1 && Count(ds[2], sid, 0, 2, key) == 2
  {
    var xs := [x, y];
    var log, spans := KeysStoredPerBatch(t, ds, evs, sid, 2, Constantly(xs, 2), orders);
    UnitBatches(ds, evs, sid, log, spans);
    assert xs[0] == x && xs[1] == y;
    assert InBatch(t, Constantly(xs, 2), spans[0], key) && InBatch(t, Constantly(xs, 2), spans[1], key);
    TwoBatches(t, Constantly(xs, 2), spans, key);
    BatchesBound(t, Constantly(xs, 2), spans, key);
    OnceCount(t, empty, once, sid, shot, xs, order, key);
    assert Survives(t, xs, 0, 2, key);
  }

  const EMPTY := Db(map[], map[], {}, map[], {}, map[])

  lemma EmptyStarts(sid: int, n: nat)
    ensures Progress(EMPTY, sid, [], n) && Bounded(EMPTY, 0) && TailEmpty(EMPTY, sid, 0) && Checkpoint(EMPTY, sid) == 0
  {
  }

  /** Both histories exist for any two chunks: start without rows and let nothing interrupt the attempts. */
  lemma SplitIsReachable(t: Text, x: Extraction, y: Extraction, sid: int)
    returns (ds: seq<Db>, evs: seq<Event>, orders: seq<seq<nat>>)
    ensures |evs| == 2 && evs[0].budget == 1 && evs[1].budget == 1
    ensures Resumed(t, ds, evs, sid, 2, Constantly([x, y], 2), orders)
  {
    hide Attempt, Consistent, Bounded, TailEmpty, Yield, Normalised, SeenAt;
    var lists := [Yield(t, x, {}), Yield(t, y, {})];
    EmptyStarts(sid, 2);
    var d1, id1 := Uninterrupted(EMPTY, 0, sid, lists, 1);
    var d2, _ := Uninterrupted(d1, id1, sid, lists, 1);
    SingleChunks(t, x, y);
    ds, evs, orders := [EMPTY, d1, d2], [Event(1, lists, Finished(1, 1)), Event(1, lists, Finished(1, 0))], [[0], [1]];
    TailShrinks(EMPTY, sid, 0, 2);
    TailShrinks(d1, sid, 1, 2);
  }

  lemma TailShrinks(d: Db, sid: int, from: nat, to: nat)
    requires TailEmpty(d, sid, from) && from <= to
    ensures TailEmpty(d, sid, to)
  {
  }

  lemma SingleChunks(t: Text, x: Extraction, y: Extraction)
    ensures var lists := [Yield(t, x, {}), Yield(t, y, {})];
            Normalised(t, [x, y], [0], 0, 1, lists) && Normalised(t, [x, y], [1], 1, 2, lists)
  {
    hide Yield;
    assert [0][0] == 0 && [1][0] == 1;
  }

  lemma OneShotIsReachable(t: Text, x: Extraction, y: Extraction, sid: int) returns (once: Db, shot: Event)
    ensures OneShot(t, EMPTY, once, sid, shot, [x, y], [0, 1])
  {
    hide Attempt, Consistent, Bounded, TailEmpty, Yield, Normalised, SeenAt;
    var lists := [Yield(t, x, {}), Yield(t, y, SeenAt(t, [x, y], [0, 1], 1))];
    EmptyStarts(sid, 2);
    var e, _ := Uninterrupted(EMPTY, 0, sid, lists, 2);
    once, shot := e, Event(2, lists, Finished(2, 0));
    BothChunks(t, x, y);
    TailShrinks(EMPTY, sid, 0, 2);
  }

  lemma BothChunks(t: Text, x: Extraction, y: Extraction)
    ensures var lists := [Yield(t, x, {}), Yield(t, y, SeenAt(t, [x, y], [0, 1], 1))];
            Normalised(t, [x, y], [0, 1], 0, 2, lists)
  {
    hide Yield;
    assert [0, 1][0] == 0 && [0, 1][1] == 1;
  }
}

/**
 * The in-memory vector store: exact nearest-neighbour search with a deterministic order,
 * upsert, delete, and its JSON form. Similarity is any score function.
 */
module MemoryVectors {
  import opened Common
  import opened VectorPort

  datatype StoredVector = StoredVector(id: int, vector: Vector, org: int, space: int)

  type Collection = map<int, StoredVector>

  /** Higher score first, ties by lower id. */
  predicate Before(a: Match, b: Match) {
    a.score > b.score || (a.score == b.score && a.id < b.id)
  }

  predicate Sorted(ms: seq<Match>) {
    forall i, j :: 0 <= i < j < |ms| ==> Before(ms[i], ms[j])
  }

  /** What the search has to rank: stored vectors of the scope at or above the floor. */
  predicate Eligible(cosine: (Vector, Vector) -> real, c: Collection, q: Query, m: Match) {
    && m.id in c && c[m.id].org == q.org && c[m.id].space == q.space
    && m.score == cosine(q.vector, c[m.id].vector)
    && (q.minScore.Some? ==> m.score >= q.minScore.value)
  }

  /** The specification of a search: eligible matches in order, and nothing left out that belongs before the last. */
  ghost predicate TopK(cosine: (Vector, Vector) -> real, c: Collection, q: Query, ms: seq<Match>) {
    && Sorted(ms) && |ms| <= q.topK
    && (forall m :: m in ms ==> Eligible(cosine, c, q, m))
    && (forall m :: Eligible(cosine, c, q, m) && m !in ms ==>
          |ms| == q.topK && forall i :: 0 <= i < |ms| ==> Before(ms[i], m))
  }

  /** There is exactly one such answer. */
  lemma {:induction false} TopKUnique(
      cosine: (Vector, Vector) -> real, c: Collection, q: Query, a: seq<Match>, b: seq<Match>)
    requires TopK(cosine, c, q, a) && TopK(cosine, c, q, b)
    ensures a == b
  {
    var n := if |a| < |b| then |a| else |b|;
    SamePrefix(cosine, c, q, a, b, n);
    assert a[..|a|] == a && b[..|b|] == b;
    NoneLeft(cosine, c, q, a, b);
    NoneLeft(cosine, c, q, b, a);
  }

  /** An answer that another one extends is the whole of it. */
  lemma NoneLeft(cosine: (Vector, Vector) -> real, c: Collection, q: Query, a: seq<Match>, b: seq<Match>)
    requires TopK(cosine, c, q, a) && TopK(cosine, c, q, b)
    ensures |a| < |b| ==> a != b[..|a|]
  {
    if |a| < |b| {
      NotEarlier(b, |a|);
      assert Eligible(cosine, c, q, b[|a|]);
    }
  }

  lemma NotEarlier(ms: seq<Match>, n: nat)
    requires Sorted(ms) && n < |ms|
    ensures ms[n] in ms && ms[n] !in ms[..n]
  {
  }

  lemma {:induction false} SamePrefix(
      cosine: (Vector, Vector) -> real, c: Collection, q: Query, a: seq<Match>, b: seq<Match>, n: nat)
    requires TopK(cosine, c, q, a) && TopK(cosine, c, q, b) && n <= |a| && n <= |b|
    ensures a[..n] == b[..n]
  {
    if n > 0 {
      SamePrefix(cosine, c, q, a, b, n - 1);
      var x, y := a[n - 1], b[n - 1];
      NotAfter(cosine, c, q, a, b, n - 1);
      NotAfter(cosine, c, q, b, a, n - 1);
      assert x.id == y.id by {
        assert x in a && y in b;
      }
      assert a[..n] == a[..n - 1] + [x] && b[..n] == b[..n - 1] + [y];
    }
  }

  /** After a common prefix, no answer's next match comes after the other's. */
  lemma NotAfter(cosine: (Vector, Vector) -> real, c: Collection, q: Query, a: seq<Match>, b: seq<Match>, n: nat)
    requires TopK(cosine, c, q, a) && TopK(cosine, c, q, b) && n < |a| && n < |b| && a[..n] == b[..n]
    ensures !Before(b[n], a[n])
  {
    assert b[n] in b;
    NotEarlier(b, n);
    if b[n] in a {
      var k :| 0 <= k < |a| && a[k] == b[n];
      assert a[k] !in a[..n] && k >= n;
    } else {
      assert Before(a[n], b[n]);
    }
  }

  /** Inserts where the order puts it. */
  function Insert(ms: seq<Match>, m: Match): seq<Match> {
    if ms == [] then [m]
    else if Before(m, ms[0]) then [m] + ms
    else [ms[0]] + Insert(ms[1..], m)
  }

  lemma {:induction false} InsertSorted(ms: seq<Match>, m: Match)
    requires Sorted(ms) && forall x :: x in ms ==> x.id != m.id
    ensures Sorted(Insert(ms, m)) && |Insert(ms, m)| == |ms| + 1
    ensures forall x :: x in Insert(ms, m) <==> x in ms || x == m
  {
    if ms != [] && !Before(m, ms[0]) {
      assert ms[0] in ms && ms == [ms[0]] + ms[1..];
      InsertSorted(ms[1..], m);
      var rest := Insert(ms[1..], m);
      forall k | 0 <= k < |rest| ensures Before(ms[0], rest[k]) {
        assert rest[k] in rest;
        if rest[k] != m {
          var j :| 0 <= j < |ms[1..]| && ms[1..][j] == rest[k];
          assert Before(ms[0], ms[j + 1]);
        }
      }
    } else if ms != [] {
      var out := [m] + ms;
      forall k | 1 <= k < |out| ensures Before(m, out[k]) {
        assert k > 1 ==> Before(ms[0], ms[k - 1]);
      }
    }
  }

  class MemoryVectorStore {
    const cosine: (Vector, Vector) -> real
    var collections: map<string, Collection>

    /** Every vector is stored under its own id. */
    ghost predicate Valid()
      reads this
    {
      forall name, id :: name in collections && id in collections[name] ==> collections[name][id].id == id
    }

    constructor (cosine: (Vector, Vector) -> real)
      ensures Valid() && collections == map[] && this.cosine == cosine
    {
      this.cosine, collections := cosine, map[];
    }

    function Stored(name: string): Collection
      reads this
    {
      if name in collections then collections[name] else map[]
    }

    /** Looking a collection up creates it. */
    method Col(name: string)
      requires Valid()
      modifies this
      ensures Valid() && collections == old(collections)[name := old(Stored(name))]
    {
      if name !in collections {
        collections := collections[name := map[]];
      }
    }

    method Upsert(name: string, items: seq<StoredVector>)
      requires Valid()
      modifies this
      ensures Valid() && collections == old(collections)[name := Upserted(old(Stored(name)), items)]
    {
      Col(name);
      ghost var before := Stored(name);
      for i := 0 to |items|
        invariant Valid() && collections == old(collections)[name := Upserted(before, items[..i])]
      {
        assert items[..i + 1][..i] == items[..i];
        collections := collections[name := collections[name][items[i].id := items[i]]];
      }
      assert items[..|items|] == items;
    }

    method DeleteByIds(name: string, ids: seq<int>)
      requires Valid()
      modifies this
      ensures Valid() && collections == old(collections)[name := Deleted(old(Stored(name)), ids)]
    {
      Col(name);
      ghost var before := Stored(name);
      assert Deleted(before, ids[..0]) == before;
      for i := 0 to |ids|
        invariant Valid() && collections == old(collections)[name := Deleted(before, ids[..i])]
      {
        assert forall id :: id in ids[..i + 1] <==> id in ids[..i] || id == ids[i];
        collections := collections[name := collections[name] - {ids[i]}];
        assert collections[name] == Deleted(before, ids[..i + 1]);
      }
      assert ids[..|ids|] == ids;
    }

    /** The exact answer: sorted by score and id, nothing of the scope missing, cut at `topK`. */
    method QueryNearest(name: string, q: Query) returns (ms: seq<Match>)
      requires Valid()
      modifies this
      ensures Valid() && forall n :: Stored(n) == old(Stored(n))
      ensures q.vector == [] || q.topK <= 0 ==> ms == []
      ensures q.vector != [] && q.topK > 0 ==> TopK(cosine, Stored(name), q, ms)
      ensures forall i, j :: 0 <= i < j < |ms| ==>
                ms[i].score > ms[j].score || (ms[i].score == ms[j].score && ms[i].id < ms[j].id)
    {
      if q.vector == [] || q.topK <= 0 {
        return [];
      }
      Col(name);
      var all := Ranked(collections[name], q);
      ms := if |all| <= q.topK then all else all[..q.topK];
      CutIsTopK(cosine, collections[name], q, all);
    }

    /** All eligible matches of a collection, in order. */
    method Ranked(c: Collection, q: Query) returns (all: seq<Match>)
      requires forall id :: id in c ==> c[id].id == id
      ensures Sorted(all) && forall m :: m in all <==> Eligible(cosine, c, q, m)
    {
      all := [];
      var todo := c.Keys;
      while exists id :: id in todo
        invariant todo <= c.Keys && Sorted(all)
        invariant forall m :: m in all <==> Eligible(cosine, c, q, m) && m.id !in todo
        decreases |todo|
      {
        var id :| id in todo;
        todo := todo - {id};
        var stored := c[id];
        if stored.org != q.org || stored.space != q.space {
          continue;
        }
        var score := cosine(q.vector, stored.vector);
        if q.minScore.Some? && score < q.minScore.value {
          continue;
        }
        InsertSorted(all, Match(id, score));
        all := Insert(all, Match(id, score));
      }
    }

    /** Each collection as a list of its vectors, in any order. */
    method ToJson() returns (data: map<string, seq<StoredVector>>)
      requires Valid()
      ensures data.Keys == collections.Keys
      ensures forall name :: name in data ==> Lists(data[name], collections[name])
    {
      data := map[];
      var todo := collections.Keys;
      while exists name :: name in todo
        invariant todo <= collections.Keys && data.Keys == collections.Keys - todo
        invariant forall name :: name in data ==> Lists(data[name], collections[name])
        decreases |todo|
      {
        var name :| name in todo;
        var items := Values(collections[name]);
        data, todo := data[name := items], todo - {name};
      }
    }

    constructor FromJson(cosine: (Vector, Vector) -> real, data: map<string, seq<StoredVector>>)
      ensures Valid() && this.cosine == cosine
      ensures collections.Keys == data.Keys
      ensures forall name :: name in data ==> collections[name] == Upserted(map[], data[name])
    {
      this.cosine := cosine;
      collections := map name | name in data :: Upserted(map[], data[name]);
      new;
      forall name | name in data ensures KeyedById(Upserted(map[], data[name])) {
        UpsertedKeyed(map[], data[name]);
      }
    }
  }

  predicate KeyedById(c: Collection) {
    forall id :: id in c ==> c[id].id == id
  }

  function Upserted(c: Collection, items: seq<StoredVector>): Collection {
    if items == [] then c
    else
      var last := items[|items| - 1];
      Upserted(c, items[..|items| - 1])[last.id := last]
  }

  function Deleted(c: Collection, ids: seq<int>): Collection {
    map id | id in c && id !in ids :: c[id]
  }

  function IdsOf(items: seq<StoredVector>): seq<int> {
    seq(|items|, i requires 0 <= i < |items| => items[i].id)
  }

  lemma {:induction false} UpsertedKeyed(c: Collection, items: seq<StoredVector>)
    requires KeyedById(c)
    ensures KeyedById(Upserted(c, items))
  {
    if items != [] {
      UpsertedKeyed(c, items[..|items| - 1]);
    }
  }

  /** Upserting twice is upserting once, and deleting what was upserted undoes it for every other id. */
  lemma {:induction false} UpsertedAt(c: Collection, items: seq<StoredVector>, id: int)
    ensures id !in IdsOf(items) ==> (id in Upserted(c, items) <==> id in c)
    ensures id !in IdsOf(items) && id in c ==> Upserted(c, items)[id] == c[id]
    ensures id in IdsOf(items) ==>
              && id in Upserted(c, items)
              && (exists i :: 0 <= i < |items| && items[i].id == id && Upserted(c, items)[id] == items[i]
                    && forall j :: i < j < |items| ==> items[j].id != id)
  {
    if items != [] {
      var n := |items| - 1;
      UpsertedAt(c, items[..n], id);
      assert IdsOf(items) == IdsOf(items[..n]) + [items[n].id];
      if id == items[n].id {
        assert Upserted(c, items)[id] == items[n];
      } else if id in IdsOf(items[..n]) {
        var i :| 0 <= i < n && items[..n][i].id == id && Upserted(c, items[..n])[id] == items[..n][i]
                 && forall j :: i < j < n ==> items[..n][j].id != id;
        assert forall j :: i < j < n ==> items[j] == items[..n][j];
        assert items[i].id == id && Upserted(c, items)[id] == items[i];
      }
    }
  }

  lemma DeleteUndoesUpsert(c: Collection, items: seq<StoredVector>)
    ensures Deleted(Upserted(c, items), IdsOf(items)) == Deleted(c, IdsOf(items))
  {
    forall id ensures id in Deleted(Upserted(c, items), IdsOf(items)) <==> id in Deleted(c, IdsOf(items)) {
      UpsertedAt(c, items, id);
    }
    forall id | id in Deleted(c, IdsOf(items)) ensures Deleted(Upserted(c, items), IdsOf(items))[id] == c[id] {
      UpsertedAt(c, items, id);
    }
  }

  /** A list of a collection's vectors, each exactly once. */
  ghost predicate Lists(items: seq<StoredVector>, c: Collection) {
    && |items| == |c|
    && (forall i :: 0 <= i < |items| ==> items[i].id in c && c[items[i].id] == items[i])
    && (forall id :: id in c ==> id in IdsOf(items))
  }

  method Values(c: Collection) returns (items: seq<StoredVector>)
    requires KeyedById(c)
    ensures Lists(items, c)
  {
    items := [];
    var todo := c.Keys;
    while exists id :: id in todo
      invariant todo <= c.Keys && |items| + |todo| == |c.Keys|
      invariant forall i :: 0 <= i < |items| ==> items[i].id in c && c[items[i].id] == items[i]
      invariant forall id :: id in c && id !in todo ==> id in IdsOf(items)
      decreases |todo|
    {
      var id :| id in todo;
      assert IdsOf(items + [c[id]]) == IdsOf(items) + [id];
      items, todo := items + [c[id]], todo - {id};
    }
    assert forall id :: id !in todo;
    assert |c.Keys| == |c|;
  }

  /** The JSON form restores a collection exactly, whatever order it lists the vectors in. */
  lemma ListRestores(c: Collection, items: seq<StoredVector>)
    requires KeyedById(c) && Lists(items, c)
    ensures Upserted(map[], items) == c
  {
    forall id ensures id in Upserted(map[], items) <==> id in c {
      UpsertedAt(map[], items, id);
      if id in IdsOf(items) {
        var i :| 0 <= i < |items| && items[i].id == id;
      }
    }
    forall id | id in c ensures Upserted(map[], items)[id] == c[id] {
      UpsertedAt(map[], items, id);
    }
  }

  method RoundTrip(store: MemoryVectorStore) returns (copy: MemoryVectorStore)
    requires store.Valid()
    ensures fresh(copy) && copy.Valid() && copy.collections == store.collections && copy.cosine == store.cosine
  {
    var data := store.ToJson();
    copy := new MemoryVectorStore.FromJson(store.cosine, data);
    forall name | name in data ensures copy.collections[name] == store.collections[name] {
      ListRestores(store.collections[name], data[name]);
    }
  }

  /** Cutting the ranked list gives the specified answer. */
  lemma CutIsTopK(cosine: (Vector, Vector) -> real, c: Collection, q: Query, all: seq<Match>)
    requires q.topK > 0 && Sorted(all) && forall m :: m in all <==> Eligible(cosine, c, q, m)
    ensures TopK(cosine, c, q, if |all| <= q.topK then all else all[..q.topK])
  {
  }
}

/**
 * The rows one ingestion touches: chunks, memories, their junction, edges and the external
 * vector index, together with the per-source checkpoint. A `Db` is a snapshot of all of
 * them; the functions are the single statements of the pipeline.
 */
module Tables {
  import opened Common
  import Normalize

  /**
   * What a memory row is made from: a normalised fact, together with the key it was
   * deduplicated under. The pipeline stores it without looking inside.
   */
  datatype Fact = Fact(key: string, content: Normalize.Fact)

  datatype Chunk = Chunk(source: int, sequence: nat)

  /** `edges` maps an edge to its witnessing memory, which is null once that memory was deleted under it. */
  datatype Db = Db(
    chunks: map<int, Chunk>,
    memories: map<int, Fact>,
    links: set<(int, int)>,
    edges: map<int, Option<int>>,
    vectors: set<int>,
    nextSeq: map<int, nat>)

  function Checkpoint(d: Db, sid: int): nat {
    if sid in d.nextSeq then d.nextSeq[sid] else 0
  }

  predicate InTail(c: Chunk, sid: int, from: nat) {
    c.source == sid && c.sequence >= from
  }

  function TailChunks(d: Db, sid: int, from: nat): set<int> {
    set c | c in d.chunks && InTail(d.chunks[c], sid, from)
  }

  function LinkedTo(d: Db, cs: set<int>): set<int> {
    set l | l in d.links && l.0 in cs :: l.1
  }

  /** Everything a purge of source `sid` from sequence `from` must leave alone. */
  function Kept(d: Db, sid: int, from: nat): Db {
    var cs := d.chunks - TailChunks(d, sid, from);
    var ls := set l | l in d.links && l.0 in cs;
    var ms := set l | l in ls :: l.1;
    Db(cs,
       map m | m in d.memories && m in ms :: d.memories[m],
       ls,
       map e | e in d.edges && d.edges[e].Some? && d.edges[e].value in ms :: d.edges[e],
       d.vectors * ms,
       d.nextSeq - {sid})
  }

  /* ---- invariants ---- */

  ghost predicate LinksLive(d: Db) {
    forall l :: l in d.links ==> l.0 in d.chunks && l.1 in d.memories
  }

  /** Every memory is cited by exactly one chunk. */
  ghost predicate OneChunkEach(d: Db) {
    && (forall m :: m in d.memories ==> exists l :: l in d.links && l.1 == m)
    && (forall k, l :: k in d.links && l in d.links && k.1 == l.1 ==> k == l)
  }

  /** No edge lost its memory, and no vector outlives its memory. */
  ghost predicate NoOrphans(d: Db) {
    && (forall e :: e in d.edges ==> d.edges[e].Some? && d.edges[e].value in d.memories)
    && d.vectors <= d.memories.Keys
  }

  ghost predicate SequencesDistinct(d: Db) {
    forall b, c :: b in d.chunks && c in d.chunks && d.chunks[b] == d.chunks[c] ==> b == c
  }

  /** Every memory of a chunk below the checkpoint is in the index. */
  ghost predicate CommittedIndexed(d: Db) {
    forall l :: l in d.links && l.0 in d.chunks && d.chunks[l.0].sequence < Checkpoint(d, d.chunks[l.0].source)
      ==> l.1 in d.vectors
  }

  ghost predicate Consistent(d: Db) {
    LinksLive(d) && OneChunkEach(d) && NoOrphans(d) && SequencesDistinct(d) && CommittedIndexed(d)
  }

  /** Every id handed out so far is below `serial`. */
  ghost predicate Bounded(d: Db, serial: int) {
    && (forall c :: c in d.chunks ==> c < serial)
    && (forall m :: m in d.memories ==> m < serial)
    && (forall e :: e in d.edges ==> e < serial)
  }

  ghost predicate TailEmpty(d: Db, sid: int, from: nat) {
    forall c :: c in d.chunks ==> !InTail(d.chunks[c], sid, from)
  }

  /* ---- content ---- */

  /** Chunk row `c` with memory rows `ids`, in extraction order, is what chunk `q` of `sid` left behind. */
  ghost predicate Stored(d: Db, c: int, ids: seq<int>, sid: int, q: nat, facts: seq<Fact>) {
    && c in d.chunks && d.chunks[c] == Chunk(sid, q)
    && |ids| == |facts|
    && (forall j, k :: 0 <= j < k < |ids| ==> ids[j] != ids[k])
    && (forall k :: 0 <= k < |ids| ==> ids[k] in d.memories && d.memories[ids[k]] == facts[k])
    && (forall l :: l in d.links && l.0 == c ==> l.1 in ids)
    && (forall k :: 0 <= k < |ids| ==> (c, ids[k]) in d.links)
  }

  /** A chunk that yielded facts has one row citing exactly them; a chunk that yielded none has no row. */
  ghost predicate Holds(d: Db, sid: int, q: nat, facts: seq<Fact>) {
    if facts == [] then forall c :: c in d.chunks ==> d.chunks[c] != Chunk(sid, q)
    else exists c, ids :: Stored(d, c, ids, sid, q, facts)
  }

  ghost predicate Indexed(d: Db, sid: int, q: nat) {
    forall l :: l in d.links && l.0 in d.chunks && d.chunks[l.0] == Chunk(sid, q) ==> l.1 in d.vectors
  }

  /** The store holds exactly what a complete ingestion of `facts` (one entry per chunk) leaves behind. */
  ghost predicate Complete(d: Db, sid: int, facts: seq<seq<Fact>>) {
    && (forall q :: 0 <= q < |facts| ==> Holds(d, sid, q, facts[q]) && Indexed(d, sid, q))
    && TailEmpty(d, sid, |facts|)
  }

  /* ---- statements ---- */

  function DeleteEdges(d: Db, ms: set<int>): Db {
    d.(edges := map e | e in d.edges && !(d.edges[e].Some? && d.edges[e].value in ms) :: d.edges[e])
  }

  function DeleteVectors(d: Db, ids: set<int>): Db {
    d.(vectors := d.vectors - ids)
  }

  /** Cascades to the junction rows and nulls the memory of every edge that still names one of `ms`. */
  function DeleteMemories(d: Db, ms: set<int>): Db {
    d.(memories := d.memories - ms,
       links := (set l | l in d.links && l.1 !in ms),
       edges := map e | e in d.edges :: if d.edges[e].Some? && d.edges[e].value in ms then None else d.edges[e])
  }

  function DeleteChunks(d: Db, cs: set<int>): Db {
    d.(chunks := d.chunks - cs, links := (set l | l in d.links && l.0 !in cs))
  }

  function Ids(id: int, n: nat): (r: set<int>)
    ensures forall m :: m in r <==> id < m <= id + n
  {
    if n == 0 then {} else Ids(id, n - 1) + {id + n}
  }

  /** One chunk row `id` and its memory rows `id + 1 .. id + |facts|`, linked. */
  function AddChunk(d: Db, sid: int, q: nat, facts: seq<Fact>, id: int): Db {
    d.(chunks := d.chunks[id := Chunk(sid, q)],
       memories := d.memories + map m | m in Ids(id, |facts|) :: facts[m - id - 1],
       links := d.links + set m | m in Ids(id, |facts|) :: (id, m))
  }

  function AddVectors(d: Db, ids: set<int>): Db {
    d.(vectors := d.vectors + ids)
  }

  function AddEdge(d: Db, id: int, m: int): Db {
    d.(edges := d.edges[id := Some(m)])
  }

  function WriteCheckpoint(d: Db, sid: int, end: nat, remaining: nat): Db {
    d.(nextSeq := if remaining > 0 then d.nextSeq[sid := end] else d.nextSeq - {sid})
  }

  /* ---- what each statement keeps ---- */

  lemma TailMemoriesAreNotKept(d: Db, sid: int, from: nat, m: int)
    requires Consistent(d)
    requires m in LinkedTo(d, TailChunks(d, sid, from))
    ensures forall l :: l in d.links && l.1 == m ==> l.0 in TailChunks(d, sid, from)
    ensures forall l :: l in Kept(d, sid, from).links ==> l.1 != m
    ensures m in d.memories && m !in Kept(d, sid, from).memories
  {
  }

  lemma DeleteEdgesKeeps(d: Db, sid: int, from: nat)
    requires Consistent(d) && Checkpoint(d, sid) <= from
    ensures var d' := DeleteEdges(d, LinkedTo(d, TailChunks(d, sid, from)));
            Consistent(d') && Kept(d', sid, from) == Kept(d, sid, from)
  {
  }

  lemma DeleteVectorsKeeps(d: Db, sid: int, from: nat, ids: set<int>)
    requires Consistent(d) && Checkpoint(d, sid) <= from
    requires ids <= LinkedTo(d, TailChunks(d, sid, from))
    ensures Consistent(DeleteVectors(d, ids)) && Kept(DeleteVectors(d, ids), sid, from) == Kept(d, sid, from)
  {
    forall m | m in ids
      ensures forall l :: l in d.links && l.1 == m ==> l.0 in TailChunks(d, sid, from)
      ensures forall l :: l in Kept(d, sid, from).links ==> l.1 != m
    {
      TailMemoriesAreNotKept(d, sid, from, m);
    }
    var d' := DeleteVectors(d, ids);
    assert TailChunks(d', sid, from) == TailChunks(d, sid, from);
    assert Kept(d', sid, from).vectors == Kept(d, sid, from).vectors;
    forall l | l in d'.links && l.0 in d'.chunks && d'.chunks[l.0].sequence < Checkpoint(d', d'.chunks[l.0].source)
      ensures l.1 in d'.vectors
    {
      assert Checkpoint(d', d.chunks[l.0].source) == Checkpoint(d, d.chunks[l.0].source);
      assert !InTail(d.chunks[l.0], sid, from);
      assert l.0 !in TailChunks(d, sid, from);
    }
  }

  /** No edge and no vector is left of the memories of the tail. */
  ghost predicate TailCleared(d: Db, sid: int, from: nat) {
    var ms := LinkedTo(d, TailChunks(d, sid, from));
    ms !! d.vectors && forall e :: e in d.edges ==> d.edges[e] != None && d.edges[e].value !in ms
  }

  lemma DeleteMemoriesKeepsEdges(d: Db, sid: int, from: nat)
    requires TailCleared(d, sid, from)
    ensures DeleteMemories(d, LinkedTo(d, TailChunks(d, sid, from))).edges == d.edges
  {
    var d' := DeleteMemories(d, LinkedTo(d, TailChunks(d, sid, from)));
    forall e | e in d.edges ensures e in d'.edges && d'.edges[e] == d.edges[e] {
    }
  }

  lemma DeleteMemoriesConsistent(d: Db, sid: int, from: nat)
    requires Consistent(d) && Checkpoint(d, sid) <= from && TailCleared(d, sid, from)
    ensures Consistent(DeleteMemories(d, LinkedTo(d, TailChunks(d, sid, from))))
  {
    var d' := DeleteMemories(d, LinkedTo(d, TailChunks(d, sid, from)));
    DeleteMemoriesKeepsEdges(d, sid, from);
    forall m | m in d'.memories ensures exists l :: l in d'.links && l.1 == m {
      var l :| l in d.links && l.1 == m;
      assert l in d'.links;
    }
  }

  lemma DeleteMemoriesKeeps(d: Db, sid: int, from: nat)
    requires Consistent(d) && Checkpoint(d, sid) <= from && TailCleared(d, sid, from)
    ensures var d' := DeleteMemories(d, LinkedTo(d, TailChunks(d, sid, from)));
            && Consistent(d') && Kept(d', sid, from) == Kept(d, sid, from)
            && TailChunks(d', sid, from) == TailChunks(d, sid, from)
            && LinkedTo(d', TailChunks(d', sid, from)) == {}
  {
    hide OneChunkEach, NoOrphans, SequencesDistinct, CommittedIndexed, TailCleared;
    var ms := LinkedTo(d, TailChunks(d, sid, from));
    DeleteMemoriesConsistent(d, sid, from);
    DeleteMemoriesKeepsEdges(d, sid, from);
    forall m | m in ms ensures forall l :: l in Kept(d, sid, from).links ==> l.1 != m {
      TailMemoriesAreNotKept(d, sid, from, m);
    }
    var d' := DeleteMemories(d, ms);
    assert TailChunks(d', sid, from) == TailChunks(d, sid, from);
    assert Kept(d', sid, from).links == Kept(d, sid, from).links;
    assert Kept(d', sid, from).memories == Kept(d, sid, from).memories;
  }

  lemma DeleteChunksKeeps(d: Db, sid: int, from: nat)
    requires Consistent(d) && Checkpoint(d, sid) <= from
    requires LinkedTo(d, TailChunks(d, sid, from)) == {}
    ensures var d' := DeleteChunks(d, TailChunks(d, sid, from));
            Consistent(d') && Kept(d', sid, from) == Kept(d, sid, from) && TailEmpty(d', sid, from)
  {
    var cs := TailChunks(d, sid, from);
    var d' := DeleteChunks(d, cs);
    assert forall l :: l in d.links && l.0 in cs ==> l.1 in LinkedTo(d, cs);
    assert d'.links == d.links;
    assert TailChunks(d', sid, from) == {};
    assert Kept(d', sid, from).chunks == Kept(d, sid, from).chunks;
  }

  lemma AddChunkKeepsLinks(d: Db, sid: int, q: nat, facts: seq<Fact>, id: int, from: nat)
    requires LinksLive(d) && Bounded(d, id) && from <= q
    ensures var k, k' := Kept(d, sid, from), Kept(AddChunk(d, sid, q, facts, id), sid, from);
            k'.chunks == k.chunks && k'.links == k.links
  {
  }

  lemma AddChunkKeepsRows(d: Db, sid: int, q: nat, facts: seq<Fact>, id: int, from: nat)
    requires Consistent(d) && Bounded(d, id) && from <= q
    ensures Kept(AddChunk(d, sid, q, facts, id), sid, from) == Kept(d, sid, from)
  {
    hide OneChunkEach, SequencesDistinct, CommittedIndexed;
    AddChunkKeepsLinks(d, sid, q, facts, id, from);
    var k, k' := Kept(d, sid, from), Kept(AddChunk(d, sid, q, facts, id), sid, from);
    assert k'.memories == k.memories;
    assert k'.vectors == k.vectors;
    assert k'.edges == k.edges;
  }

  /** The ids of the memories of a new chunk row `id`, in extraction order. */
  function MemoryIds(id: int, n: nat): (ids: seq<int>)
    ensures |ids| == n && forall k :: 0 <= k < n ==> ids[k] == id + 1 + k && ids[k] in Ids(id, n)
    ensures forall m :: m in Ids(id, n) ==> m in ids
  {
    var ids := seq(n, k => id + 1 + k);
    assert forall m :: m in Ids(id, n) ==> m == ids[m - id - 1];
    ids
  }

  /** The links of the new chunk are exactly those to its memories. */
  lemma AddChunkOwnLinks(d: Db, sid: int, q: nat, facts: seq<Fact>, id: int)
    requires LinksLive(d) && Bounded(d, id)
    ensures var d' := AddChunk(d, sid, q, facts, id);
            && (forall l :: l in d'.links && l.0 == id ==> l.1 in Ids(id, |facts|))
            && (forall m :: m in Ids(id, |facts|) ==> (id, m) in d'.links)
  {
  }

  lemma AddChunkOwnMemories(d: Db, sid: int, q: nat, facts: seq<Fact>, id: int)
    ensures var d' := AddChunk(d, sid, q, facts, id);
            && id in d'.chunks && d'.chunks[id] == Chunk(sid, q)
            && (forall m :: m in Ids(id, |facts|) ==> m in d'.memories && d'.memories[m] == facts[m - id - 1])
  {
  }

  lemma AddChunkStores(d: Db, sid: int, q: nat, facts: seq<Fact>, id: int)
    requires LinksLive(d) && Bounded(d, id) && facts != []
    ensures Holds(AddChunk(d, sid, q, facts, id), sid, q, facts)
  {
    hide AddChunk, Ids;
    AddChunkOwnLinks(d, sid, q, facts, id);
    AddChunkOwnMemories(d, sid, q, facts, id);
    assert Stored(AddChunk(d, sid, q, facts, id), id, MemoryIds(id, |facts|), sid, q, facts);
  }

  lemma AddChunkLinks(d: Db, sid: int, q: nat, facts: seq<Fact>, id: int)
    requires Consistent(d) && Bounded(d, id)
    ensures LinksLive(AddChunk(d, sid, q, facts, id)) && OneChunkEach(AddChunk(d, sid, q, facts, id))
  {
    var d' := AddChunk(d, sid, q, facts, id);
    forall m | m in d'.memories ensures exists l :: l in d'.links && l.1 == m {
      if m in d.memories {
        var l :| l in d.links && l.1 == m;
        assert l in d'.links;
      } else {
        assert (id, m) in d'.links;
      }
    }
  }

  lemma AddChunkConsistent(d: Db, sid: int, q: nat, facts: seq<Fact>, id: int)
    requires Consistent(d) && Bounded(d, id)
    requires Checkpoint(d, sid) <= q && TailEmpty(d, sid, q)
    ensures Consistent(AddChunk(d, sid, q, facts, id))
  {
    hide OneChunkEach;
    var d' := AddChunk(d, sid, q, facts, id);
    AddChunkLinks(d, sid, q, facts, id);
    forall b, c | b in d'.chunks && c in d'.chunks && d'.chunks[b] == d'.chunks[c] ensures b == c {
      assert d'.chunks[b] == Chunk(sid, q) ==> b == id;
    }
  }

  lemma AddChunkKeeps(d: Db, sid: int, q: nat, facts: seq<Fact>, id: int, from: nat)
    requires Consistent(d) && Bounded(d, id) && from <= q
    requires Checkpoint(d, sid) <= q && TailEmpty(d, sid, q) && facts != []
    ensures var d' := AddChunk(d, sid, q, facts, id);
            && Consistent(d') && Bounded(d', id + |facts| + 1) && Kept(d', sid, from) == Kept(d, sid, from)
            && Holds(d', sid, q, facts) && TailEmpty(d', sid, q + 1)
  {
    AddChunkKeepsRows(d, sid, q, facts, id, from);
    AddChunkStores(d, sid, q, facts, id);
    AddChunkConsistent(d, sid, q, facts, id);
  }

  lemma AddVectorsKeeps(d: Db, sid: int, from: nat, ids: set<int>)
    requires Consistent(d) && ids <= LinkedTo(d, TailChunks(d, sid, from))
    ensures Consistent(AddVectors(d, ids)) && Kept(AddVectors(d, ids), sid, from) == Kept(d, sid, from)
  {
  }

  lemma AddEdgeConsistent(d: Db, sid: int, from: nat, id: int, m: int)
    requires Consistent(d) && m in LinkedTo(d, TailChunks(d, sid, from))
    ensures Consistent(AddEdge(d, id, m))
  {
    var d' := AddEdge(d, id, m);
    assert NoOrphans(d') by {
      assert m in d.memories;
    }
  }

  lemma AddEdgeKeepsRows(d: Db, sid: int, from: nat, id: int, m: int)
    requires Bounded(d, id) && m !in Kept(d, sid, from).memories
    requires LinksLive(d) && m in d.memories
    ensures Kept(AddEdge(d, id, m), sid, from) == Kept(d, sid, from)
  {
    var k, k' := Kept(d, sid, from), Kept(AddEdge(d, id, m), sid, from);
    assert TailChunks(AddEdge(d, id, m), sid, from) == TailChunks(d, sid, from);
    assert k'.edges == k.edges;
  }

  lemma AddEdgeKeeps(d: Db, sid: int, from: nat, id: int, m: int)
    requires Consistent(d) && Bounded(d, id) && m in LinkedTo(d, TailChunks(d, sid, from))
    ensures var d' := AddEdge(d, id, m);
            Consistent(d') && Bounded(d', id + 1) && Kept(d', sid, from) == Kept(d, sid, from)
  {
    hide Kept, OneChunkEach, SequencesDistinct, CommittedIndexed;
    TailMemoriesAreNotKept(d, sid, from, m);
    AddEdgeConsistent(d, sid, from, id, m);
    AddEdgeKeepsRows(d, sid, from, id, m);
  }

  lemma WriteCheckpointKeeps(d: Db, sid: int, from: nat, end: nat, remaining: nat)
    requires Consistent(d) && Checkpoint(d, sid) == from <= end
    requires forall q :: from <= q < end ==> Indexed(d, sid, q)
    ensures var d' := WriteCheckpoint(d, sid, end, remaining);
            Consistent(d') && Kept(d', sid, from) == Kept(d, sid, from)
  {
    var d' := WriteCheckpoint(d, sid, end, remaining);
    assert TailChunks(d', sid, from) == TailChunks(d, sid, from);
    assert d'.nextSeq - {sid} == d.nextSeq - {sid};
    forall l | l in d'.links && l.0 in d'.chunks && d'.chunks[l.0].sequence < Checkpoint(d', d'.chunks[l.0].source)
      ensures l.1 in d'.vectors
    {
      var c := d.chunks[l.0];
      if c.source == sid && from <= c.sequence {
        assert Indexed(d, sid, c.sequence);
      } else if c.source != sid {
        assert Checkpoint(d', c.source) == Checkpoint(d, c.source);
      }
    }
  }

  /* ---- content survives whatever leaves the kept rows alone ---- */

  lemma KeptChunkRow(d: Db, e: Db, sid: int, from: nat, c: int)
    requires Kept(d, sid, from).chunks == Kept(e, sid, from).chunks
    requires c in e.chunks && !InTail(e.chunks[c], sid, from)
    ensures c in d.chunks && d.chunks[c] == e.chunks[c]
  {
    assert c in Kept(e, sid, from).chunks;
    assert c in Kept(d, sid, from).chunks;
    assert Kept(d, sid, from).chunks[c] == Kept(e, sid, from).chunks[c];
  }

  lemma KeptLinkRow(d: Db, e: Db, sid: int, from: nat, l: (int, int))
    requires Kept(d, sid, from) == Kept(e, sid, from)
    requires l in e.links && l.0 in e.chunks && !InTail(e.chunks[l.0], sid, from)
    ensures l in d.links && (l.1 in d.vectors <==> l.1 in e.vectors)
    ensures l.1 in d.memories <==> l.1 in e.memories
    ensures l.1 in d.memories ==> d.memories[l.1] == e.memories[l.1]
  {
    var kd, ke := Kept(d, sid, from), Kept(e, sid, from);
    assert l in ke.links;
    assert l in kd.links;
    assert l.1 in kd.vectors <==> l.1 in d.vectors;
    assert l.1 in ke.vectors <==> l.1 in e.vectors;
    assert l.1 in kd.memories <==> l.1 in d.memories;
    assert l.1 in ke.memories <==> l.1 in e.memories;
    if l.1 in kd.memories {
      assert kd.memories[l.1] == ke.memories[l.1];
    }
  }

  lemma KeptHolds(d: Db, e: Db, sid: int, from: nat, other: int, q: nat, facts: seq<Fact>)
    requires Kept(d, sid, from) == Kept(e, sid, from) && (other != sid || q < from)
    requires Holds(d, other, q, facts)
    ensures Holds(e, other, q, facts)
  {
    if facts == [] {
      forall c | c in e.chunks ensures e.chunks[c] != Chunk(other, q) {
        if e.chunks[c] == Chunk(other, q) {
          KeptChunkRow(d, e, sid, from, c);
        }
      }
    } else {
      var c, ids :| Stored(d, c, ids, other, q, facts);
      KeptChunkRow(e, d, sid, from, c);
      forall i | 0 <= i < |ids|
        ensures (c, ids[i]) in e.links && ids[i] in e.memories && e.memories[ids[i]] == facts[i]
      {
        KeptLinkRow(e, d, sid, from, (c, ids[i]));
      }
      forall l | l in e.links && l.0 == c ensures l.1 in ids {
        KeptLinkRow(d, e, sid, from, l);
      }
      assert Stored(e, c, ids, other, q, facts);
    }
  }

  lemma KeptIndexed(d: Db, e: Db, sid: int, from: nat, other: int, q: nat)
    requires Kept(d, sid, from) == Kept(e, sid, from) && (other != sid || q < from)
    requires Indexed(d, other, q)
    ensures Indexed(e, other, q)
  {
    forall l | l in e.links && l.0 in e.chunks && e.chunks[l.0] == Chunk(other, q) ensures l.1 in e.vectors {
      KeptLinkRow(d, e, sid, from, l);
      KeptChunkRow(d, e, sid, from, l.0);
    }
  }

  lemma KeptComplete(d: Db, e: Db, sid: int, from: nat, other: int, facts: seq<seq<Fact>>)
    requires Kept(d, sid, from) == Kept(e, sid, from) && other != sid
    requires Complete(d, other, facts)
    ensures Complete(e, other, facts)
  {
    forall q | 0 <= q < |facts| ensures Holds(e, other, q, facts[q]) && Indexed(e, other, q) {
      KeptHolds(d, e, sid, from, other, q, facts[q]);
      KeptIndexed(d, e, sid, from, other, q);
    }
    forall c | c in e.chunks ensures !InTail(e.chunks[c], other, |facts|) {
      if InTail(e.chunks[c], other, |facts|) {
        KeptChunkRow(d, e, sid, from, c);
      }
    }
  }
}

/**
 * Validation and deduplication of extracted memories, and the join with their graph
 * results: in one pass, and in the two phases that let embedding overlap the graph request.
 */
module Normalize {
  import opened Common
  import opened Keys

  const MIN_FACT_WORDS := 3
  const ENTITY_NAME_MAX_WORDS := 5
  const MIN_IMPORTANCE_SCORE := 0.2
  const MIN_RELATION_CONFIDENCE := 0.7
  const DEFAULT_ENTITY_TYPE := "object"

  const VALID_MEMORY_TYPES := {"semantic", "episode", "viewpoint"}
  const VALID_SPEAKER_ROLES := {"user", "assistant", "system", "tool"}

  /**
   * The text operations: white-space normalisation, trimming, lower case, word count, the
   * generic phrases, the character tables, and dates to and from ISO text. Any choice will do.
   */
  datatype Ops = Ops(
    text: string -> string,
    trim: string -> string,
    lower: string -> string,
    words: string -> nat,
    generic: string -> bool,
    chars: Chars,
    parse: string -> Option<int>,
    iso: int -> string)

  /** A score is `None` when it is missing or not a finite number. */
  datatype RawMemory = RawMemory(
    content: string,
    memoryType: Option<string>,
    importance: Option<real>,
    role: Option<string>,
    eventTime: Option<string>)

  datatype RawEntity = RawEntity(name: string, entityType: string)

  datatype RawRelation = RawRelation(
    subject: string, relation: string, target: string, confidence: Option<real>, validFrom: Option<string>)

  /** `index` is `None` when the model answered with something that is not an integer. */
  datatype Graph = Graph(index: Option<int>, entities: seq<RawEntity>, relations: seq<RawRelation>)

  datatype Entity = Entity(name: string, entityType: string)

  datatype Relation = Relation(
    subject: string, relation: string, target: string, confidence: real, validFrom: Option<int>)

  datatype Fact = Fact(
    content: string,
    memoryType: string,
    importance: real,
    role: Option<string>,
    eventTime: Option<int>,
    entities: seq<Entity>,
    relations: seq<Relation>)

  datatype BaseFact = BaseFact(rawIndex: nat, fallback: Option<int>, fact: Fact)

  datatype Verdict = Keep(fact: Fact) | Drop(reason: string)

  datatype RelationVerdict = Accept(relation: Relation) | Reject(reason: string)

  function Date(ops: Ops, value: Option<string>): Option<int> {
    if value.None? then None else ops.parse(value.value)
  }

  function Score(value: Option<real>): Option<real> {
    if value.None? || value.value < 0.0 || value.value > 1.0 then None else value
  }

  /* ---- what is kept, memory by memory ---- */

  predicate LowSignal(ops: Ops, content: string) {
    content == "" || ops.words(content) < MIN_FACT_WORDS || ops.generic(content)
  }

  /** A memory on its own, without graph fields. */
  function Judge(ops: Ops, raw: RawMemory): Verdict {
    var content := ops.text(raw.content);
    if LowSignal(ops, content) then Drop("low_signal_content")
    else if raw.memoryType.None? || raw.memoryType.value !in VALID_MEMORY_TYPES then Drop("invalid_memory_type")
    else if raw.role.Some? && raw.role.value !in VALID_SPEAKER_ROLES then Drop("invalid_speaker_role")
    else if Score(raw.importance).None? || Score(raw.importance).value < MIN_IMPORTANCE_SCORE
    then Drop("low_importance_score")
    else
      Keep(Fact(content, raw.memoryType.value, raw.importance.value, raw.role, Date(ops, raw.eventTime), [], []))
  }

  function JudgeRelation(ops: Ops, raw: RawRelation, fallback: Option<int>): RelationVerdict {
    var subject, target := ops.text(raw.subject), ops.text(raw.target);
    var relation := RelationName(ops.chars, raw.relation);
    if relation == "" then Reject("empty_relation_name")
    else if subject == "" || target == "" then Reject("empty_relation_subject_or_object")
    else if ops.lower(subject) == ops.lower(target) then Reject("self_relation")
    else if Score(raw.confidence).None? || Score(raw.confidence).value < MIN_RELATION_CONFIDENCE
    then Reject("low_confidence_relation")
    else
      var stated := Date(ops, raw.validFrom);
      Accept(Relation(subject, relation, target, raw.confidence.value, if stated.Some? then stated else fallback))
  }

  predicate Knows(ops: Ops, es: seq<Entity>, name: string) {
    exists k :: 0 <= k < |es| && ops.lower(es[k].name) == ops.lower(name)
  }

  predicate KnownOrLong(ops: Ops, es: seq<Entity>, name: string) {
    Knows(ops, es, name) || ops.words(name) > 5
  }

  function Entities(ops: Ops, raw: seq<RawEntity>): seq<Entity> {
    if raw == [] then []
    else
      var init, last := Entities(ops, raw[..|raw| - 1]), raw[|raw| - 1];
      var name := ops.text(last.name);
      if name == "" || Knows(ops, init, name) then init
      else
        var entityType := ops.trim(last.entityType);
        init + [Entity(name, if entityType == "" then DEFAULT_ENTITY_TYPE else entityType)]
  }

  function Relations(ops: Ops, raw: seq<RawRelation>, fallback: Option<int>): seq<Relation> {
    if raw == [] then []
    else
      var verdict := JudgeRelation(ops, raw[|raw| - 1], fallback);
      Relations(ops, raw[..|raw| - 1], fallback) + if verdict.Accept? then [verdict.relation] else []
  }

  function Mentions(relations: seq<Relation>): seq<string> {
    if relations == [] then []
    else
      var last := relations[|relations| - 1];
      Mentions(relations[..|relations| - 1]) + [last.subject, last.target]
  }

  /** Adds a stub for every mentioned name that is not known yet and is short enough. */
  function Backfilled(ops: Ops, es: seq<Entity>, names: seq<string>): seq<Entity> {
    if names == [] then es
    else
      var init, name := Backfilled(ops, es, names[..|names| - 1]), names[|names| - 1];
      if Knows(ops, init, name) || ops.words(name) > ENTITY_NAME_MAX_WORDS then init
      else init + [Entity(name, DEFAULT_ENTITY_TYPE)]
  }

  function WithGraph(ops: Ops, f: Fact, graph: Option<Graph>, fallback: Option<int>): Fact {
    if graph.None? then f.(entities := [], relations := [])
    else
      var relations := Relations(ops, graph.value.relations, fallback);
      f.(entities := Backfilled(ops, Entities(ops, graph.value.entities), Mentions(relations)), relations := relations)
  }

  /** The fused form: a memory together with its graph result. */
  function Normalized(ops: Ops, raw: RawMemory, graph: Option<Graph>): Verdict {
    match Judge(ops, raw)
    case Keep(f) => Keep(WithGraph(ops, f, graph, f.eventTime))
    case Drop(reason) => Drop(reason)
  }

  /** The first result for memory `i`; results out of range are ignored. */
  function FirstGraph(graphs: seq<Graph>, i: int, count: nat): Option<Graph> {
    if graphs == [] then None
    else
      var earlier := FirstGraph(graphs[..|graphs| - 1], i, count);
      var last := graphs[|graphs| - 1];
      if earlier.Some? then earlier
      else if last.index == Some(i) && 0 <= i < count then Some(last) else None
  }

  /* ---- deduplication over a list of memories ---- */

  function KeyOf(ops: Ops, f: Fact): string {
    FactKey(ops.lower(f.content), f.memoryType, if f.role.Some? then f.role.value else "",
            if f.eventTime.Some? then ops.iso(f.eventTime.value) else "")
  }

  /** The keys on record after `raws`, starting from those shared by earlier chunks. */
  function KeysAfter(ops: Ops, raws: seq<RawMemory>, seen: set<string>): set<string> {
    if raws == [] then seen
    else
      var init, verdict := KeysAfter(ops, raws[..|raws| - 1], seen), Judge(ops, raws[|raws| - 1]);
      if verdict.Keep? then init + {KeyOf(ops, verdict.fact)} else init
  }

  /** First phase: the facts that survive, without graph fields. */
  function Base(ops: Ops, raws: seq<RawMemory>, seen: set<string>): seq<BaseFact> {
    if raws == [] then []
    else
      var i := |raws| - 1;
      var init, verdict := Base(ops, raws[..i], seen), Judge(ops, raws[i]);
      if verdict.Drop? || KeyOf(ops, verdict.fact) in KeysAfter(ops, raws[..i], seen) then init
      else init + [BaseFact(i, verdict.fact.eventTime, verdict.fact)]
  }

  /** The one drop reason of every memory that does not survive. */
  function Drops(ops: Ops, raws: seq<RawMemory>, seen: set<string>): seq<string> {
    if raws == [] then []
    else
      var i := |raws| - 1;
      var init, verdict := Drops(ops, raws[..i], seen), Judge(ops, raws[i]);
      if verdict.Drop? then init + [verdict.reason]
      else if KeyOf(ops, verdict.fact) in KeysAfter(ops, raws[..i], seen) then init + ["duplicate_fact"] else init
  }

  /** The reference: each surviving memory normalised with its own graph result, in one pass. */
  function Fused(ops: Ops, raws: seq<RawMemory>, count: nat, graphs: seq<Graph>, seen: set<string>): seq<Fact> {
    if raws == [] then []
    else
      var i := |raws| - 1;
      var init := Fused(ops, raws[..i], count, graphs, seen);
      var verdict := Normalized(ops, raws[i], FirstGraph(graphs, i, count));
      if verdict.Drop? || KeyOf(ops, verdict.fact) in KeysAfter(ops, raws[..i], seen) then init
      else init + [verdict.fact]
  }

  /** Second phase. */
  function Attached(ops: Ops, base: seq<BaseFact>, count: nat, graphs: seq<Graph>): seq<Fact> {
    if base == [] then []
    else
      var last := base[|base| - 1];
      Attached(ops, base[..|base| - 1], count, graphs)
      + [WithGraph(ops, last.fact, FirstGraph(graphs, last.rawIndex, count), last.fallback)]
  }

  /** The temporal fallback: an event time inferred from the content where the model gave none. */
  function Filled(infer: string -> Option<int>, f: Fact): Fact {
    if f.eventTime.Some? then f else f.(eventTime := infer(f.content))
  }

  function FilledBase(infer: string -> Option<int>, base: seq<BaseFact>): seq<BaseFact> {
    seq(|base|, k requires 0 <= k < |base| => base[k].(fact := Filled(infer, base[k].fact)))
  }

  function FilledFacts(infer: string -> Option<int>, facts: seq<Fact>): seq<Fact> {
    seq(|facts|, k requires 0 <= k < |facts| => Filled(infer, facts[k]))
  }

  /**
   * Splitting preserves the result: attaching the graph to base facts whose event times were
   * filled in meanwhile gives the facts of the fused form with the times filled in after it.
   */
  lemma {:induction false} SplitEqualsFused(
      ops: Ops, raws: seq<RawMemory>, count: nat, graphs: seq<Graph>, seen: set<string>, infer: string -> Option<int>)
    ensures Attached(ops, FilledBase(infer, Base(ops, raws, seen)), count, graphs)
            == FilledFacts(infer, Fused(ops, raws, count, graphs, seen))
    ensures |Base(ops, raws, seen)| == |Fused(ops, raws, count, graphs, seen)|
    decreases |raws|
  {
    hide Judge, FirstGraph, Relations, Entities, Backfilled, Mentions, KeysAfter;
    if raws != [] {
      var i := |raws| - 1;
      SplitEqualsFused(ops, raws[..i], count, graphs, seen, infer);
      var verdict, graph := Judge(ops, raws[i]), FirstGraph(graphs, i, count);
      if verdict.Keep? {
        var f := verdict.fact;
        var whole := WithGraph(ops, f, graph, f.eventTime);
        assert KeyOf(ops, whole) == KeyOf(ops, f);
        assert Filled(infer, whole) == WithGraph(ops, Filled(infer, f), graph, f.eventTime);
        if KeyOf(ops, f) !in KeysAfter(ops, raws[..i], seen) {
          var init := Base(ops, raws[..i], seen);
          var base := FilledBase(infer, Base(ops, raws, seen));
          assert base[..|base| - 1] == FilledBase(infer, init);
          assert base[|base| - 1] == BaseFact(i, f.eventTime, Filled(infer, f));
          assert FilledFacts(infer, Fused(ops, raws, count, graphs, seen))
              == FilledFacts(infer, Fused(ops, raws[..i], count, graphs, seen)) + [Filled(infer, whole)];
        }
      }
    }
  }

  /** Every raw memory becomes one fact or one drop reason. */
  lemma {:induction false} EveryMemoryAccounted(ops: Ops, raws: seq<RawMemory>, seen: set<string>)
    ensures |Base(ops, raws, seen)| + |Drops(ops, raws, seen)| == |raws|
    ensures forall k :: 0 <= k < |Base(ops, raws, seen)| ==> Base(ops, raws, seen)[k].rawIndex < |raws|
    decreases |raws|
  {
    if raws != [] {
      EveryMemoryAccounted(ops, raws[..|raws| - 1], seen);
    }
  }

  ghost predicate DistinctKeys(ops: Ops, base: seq<BaseFact>) {
    forall j, k :: 0 <= j < k < |base| ==> KeyOf(ops, base[j].fact) != KeyOf(ops, base[k].fact)
  }

  ghost predicate FreshKeys(ops: Ops, base: seq<BaseFact>, seen: set<string>) {
    forall k :: 0 <= k < |base| ==> KeyOf(ops, base[k].fact) !in seen
  }

  function KeysOf(ops: Ops, base: seq<BaseFact>): set<string> {
    set k | 0 <= k < |base| :: KeyOf(ops, base[k].fact)
  }

  /** Survivors have fresh, pairwise different keys, and exactly their keys join the record. */
  lemma {:induction false} SurvivorsDistinct(ops: Ops, raws: seq<RawMemory>, seen: set<string>)
    ensures DistinctKeys(ops, Base(ops, raws, seen)) && FreshKeys(ops, Base(ops, raws, seen), seen)
    ensures KeysAfter(ops, raws, seen) == seen + KeysOf(ops, Base(ops, raws, seen))
    decreases |raws|
  {
    if raws != [] {
      var i := |raws| - 1;
      SurvivorsDistinct(ops, raws[..i], seen);
      var init, base := Base(ops, raws[..i], seen), Base(ops, raws, seen);
      if |base| > |init| {
        KeysOfSnoc(ops, init, base[|init|]);
      }
    }
  }

  lemma KeysOfSnoc(ops: Ops, init: seq<BaseFact>, last: BaseFact)
    ensures KeysOf(ops, init + [last]) == KeysOf(ops, init) + {KeyOf(ops, last.fact)}
  {
    var all := init + [last];
    forall key | key in KeysOf(ops, init) + {KeyOf(ops, last.fact)} ensures key in KeysOf(ops, all) {
      if key == KeyOf(ops, last.fact) {
        assert all[|init|] == last;
      } else {
        var k :| 0 <= k < |init| && KeyOf(ops, init[k].fact) == key;
        assert all[k] == init[k];
      }
    }
  }

  /** All chunks of one batch in turn, sharing one record of keys. */
  function Chunks(ops: Ops, chunks: seq<seq<RawMemory>>, seen: set<string>): seq<BaseFact> {
    if chunks == [] then []
    else Base(ops, chunks[0], seen) + Chunks(ops, chunks[1..], KeysAfter(ops, chunks[0], seen))
  }

  /** No fact recurs over the chunks of one batch, however they overlap; the next batch starts a new record. */
  lemma {:induction false} SharedRecordDistinct(ops: Ops, chunks: seq<seq<RawMemory>>, seen: set<string>)
    ensures DistinctKeys(ops, Chunks(ops, chunks, seen)) && FreshKeys(ops, Chunks(ops, chunks, seen), seen)
    decreases |chunks|
  {
    if chunks != [] {
      var seen1 := KeysAfter(ops, chunks[0], seen);
      SurvivorsDistinct(ops, chunks[0], seen);
      SharedRecordDistinct(ops, chunks[1..], seen1);
      DistinctAppend(ops, Base(ops, chunks[0], seen), Chunks(ops, chunks[1..], seen1), seen);
    }
  }

  /** What a chunk adds to the record does not depend on what is on it already. */
  lemma {:induction false} KeysAfterIsUnion(ops: Ops, raws: seq<RawMemory>, seen: set<string>)
    ensures KeysAfter(ops, raws, seen) == seen + KeysAfter(ops, raws, {})
    decreases |raws|
  {
    if raws != [] {
      KeysAfterIsUnion(ops, raws[..|raws| - 1], seen);
    }
  }

  /** The facts of the one-pass form are the base facts, each with its own graph, under the same keys. */
  lemma {:induction false} FusedFacts(
      ops: Ops, raws: seq<RawMemory>, count: nat, graphs: seq<Graph>, seen: set<string>)
    ensures var fused, base := Fused(ops, raws, count, graphs, seen), Base(ops, raws, seen);
            && |fused| == |base|
            && (forall k :: 0 <= k < |base| ==>
                  && KeyOf(ops, fused[k]) == KeyOf(ops, base[k].fact)
                  && fused[k] == WithGraph(ops, base[k].fact, FirstGraph(graphs, base[k].rawIndex, count),
                                           base[k].fallback))
    decreases |raws|
  {
    if raws != [] {
      var i := |raws| - 1;
      FusedFacts(ops, raws[..i], count, graphs, seen);
      hide Judge, FirstGraph, Relations, Entities, Backfilled, Mentions, KeysAfter;
      var verdict := Judge(ops, raws[i]);
      if verdict.Keep? {
        assert KeyOf(ops, WithGraph(ops, verdict.fact, FirstGraph(graphs, i, count), verdict.fact.eventTime))
            == KeyOf(ops, verdict.fact);
      }
    }
  }

  /** Two records that agree on a chunk's own keys give it the same facts. */
  lemma {:induction false} FusedLocal(
      ops: Ops, raws: seq<RawMemory>, count: nat, graphs: seq<Graph>, s: set<string>, t: set<string>)
    requires forall key :: key in KeysAfter(ops, raws, {}) ==> (key in s <==> key in t)
    ensures Fused(ops, raws, count, graphs, s) == Fused(ops, raws, count, graphs, t)
    decreases |raws|
  {
    if raws != [] {
      hide Judge, FirstGraph, WithGraph;
      var init := raws[..|raws| - 1];
      FusedLocal(ops, init, count, graphs, s, t);
      KeysAfterIsUnion(ops, init, s);
      KeysAfterIsUnion(ops, init, t);
    }
  }

  lemma DistinctAppend(ops: Ops, a: seq<BaseFact>, b: seq<BaseFact>, seen: set<string>)
    requires DistinctKeys(ops, a) && DistinctKeys(ops, b)
    requires FreshKeys(ops, a, seen) && FreshKeys(ops, b, seen + KeysOf(ops, a))
    ensures DistinctKeys(ops, a + b) && FreshKeys(ops, a + b, seen)
  {
  }

  /* ---- the key stands for the tuple ---- */

  ghost predicate IsoLaws(ops: Ops) {
    && (forall t :: ops.iso(t) != "" && BarFree(ops.iso(t)))
    && (forall t, u :: ops.iso(t) == ops.iso(u) ==> t == u)
  }

  predicate Valid(f: Fact) {
    f.memoryType in VALID_MEMORY_TYPES && (f.role.Some? ==> f.role.value in VALID_SPEAKER_ROLES)
  }

  lemma TagsBarFree()
    ensures forall s :: s in VALID_MEMORY_TYPES || s in VALID_SPEAKER_ROLES ==> s != "" && BarFree(s)
  {
  }

  lemma KeyIsTuple(ops: Ops, f: Fact, g: Fact)
    requires IsoLaws(ops) && Valid(f) && Valid(g)
    ensures KeyOf(ops, f) == KeyOf(ops, g) <==>
            && ops.lower(f.content) == ops.lower(g.content) && f.memoryType == g.memoryType
            && f.role == g.role && f.eventTime == g.eventTime
  {
    var r1, r2 := if f.role.Some? then f.role.value else "", if g.role.Some? then g.role.value else "";
    var i1 := if f.eventTime.Some? then ops.iso(f.eventTime.value) else "";
    var i2 := if g.eventTime.Some? then ops.iso(g.eventTime.value) else "";
    TagsBarFree();
    var t1: int, t2: int := f.eventTime.GetOr(0), g.eventTime.GetOr(0);
    assert ops.iso(t1) != "" && BarFree(ops.iso(t1)) && ops.iso(t2) != "" && BarFree(ops.iso(t2));
    FactKeyInjective(ops.lower(f.content), f.memoryType, r1, i1, ops.lower(g.content), g.memoryType, r2, i2);
  }

  /* ---- what the graph fields promise ---- */

  ghost predicate DistinctNames(ops: Ops, es: seq<Entity>) {
    forall j, k :: 0 <= j < k < |es| ==> ops.lower(es[j].name) != ops.lower(es[k].name)
  }

  lemma {:induction false} EntitiesDistinct(ops: Ops, raw: seq<RawEntity>)
    ensures DistinctNames(ops, Entities(ops, raw))
    decreases |raw|
  {
    if raw != [] {
      EntitiesDistinct(ops, raw[..|raw| - 1]);
    }
  }

  lemma {:induction false} BackfilledKnows(ops: Ops, es: seq<Entity>, names: seq<string>)
    requires DistinctNames(ops, es)
    ensures es <= Backfilled(ops, es, names) && DistinctNames(ops, Backfilled(ops, es, names))
    ensures forall k :: 0 <= k < |names| ==>
              Knows(ops, Backfilled(ops, es, names), names[k]) || ops.words(names[k]) > ENTITY_NAME_MAX_WORDS
    decreases |names|
  {
    if names != [] {
      var n := |names| - 1;
      BackfilledKnows(ops, es, names[..n]);
      var init, all := Backfilled(ops, es, names[..n]), Backfilled(ops, es, names);
      assert forall k :: 0 <= k < |init| ==> all[k] == init[k];
      forall k | 0 <= k < n ensures Knows(ops, all, names[k]) || ops.words(names[k]) > ENTITY_NAME_MAX_WORDS {
        assert names[..n][k] == names[k];
        if Knows(ops, init, names[k]) {
          KnowsMore(ops, init, all, names[k]);
        }
      }
      if |all| > |init| {
        assert all[|init|].name == names[n];
      }
    }
  }

  lemma KnowsMore(ops: Ops, es: seq<Entity>, more: seq<Entity>, name: string)
    requires es <= more && Knows(ops, es, name)
    ensures Knows(ops, more, name)
  {
  }

  lemma {:induction false} MentionsBoth(relations: seq<Relation>)
    ensures |Mentions(relations)| == 2 * |relations|
    ensures forall k :: 0 <= k < |relations| ==>
              && Mentions(relations)[2 * k] == relations[k].subject
              && Mentions(relations)[2 * k + 1] == relations[k].target
    decreases |relations|
  {
    if relations != [] {
      MentionsBoth(relations[..|relations| - 1]);
    }
  }

  /** Every endpoint of a fact's relations is among its entities, unless it has more than five words. */
  lemma EndpointsAreEntities(ops: Ops, f: Fact, graph: Option<Graph>, fallback: Option<int>, k: nat)
    requires k < |WithGraph(ops, f, graph, fallback).relations|
    ensures var g := WithGraph(ops, f, graph, fallback);
            && DistinctNames(ops, g.entities)
            && KnownOrLong(ops, g.entities, g.relations[k].subject)
            && KnownOrLong(ops, g.entities, g.relations[k].target)
  {
    var relations := WithGraph(ops, f, graph, fallback).relations;
    var es := Entities(ops, graph.value.entities);
    EntitiesDistinct(ops, graph.value.entities);
    BackfilledKnows(ops, es, Mentions(relations));
    MentionsBoth(relations);
  }

  lemma {:induction false} RelationsAreSound(ops: Ops, raw: seq<RawRelation>, fallback: Option<int>)
    requires Lawful(ops.chars)
    ensures forall k :: 0 <= k < |Relations(ops, raw, fallback)| ==>
              var r := Relations(ops, raw, fallback)[k];
              && r.subject != "" && r.target != "" && r.relation != ""
              && ops.lower(r.subject) != ops.lower(r.target)
              && MIN_RELATION_CONFIDENCE <= r.confidence <= 1.0
              && Canonical(ops.chars, r.relation)
    decreases |raw|
  {
    if raw != [] {
      RelationsAreSound(ops, raw[..|raw| - 1], fallback);
      RelationNameCanonical(ops.chars, raw[|raw| - 1].relation);
    }
  }

  /* ---- the loops ---- */

  /** Counts drops by reason; `log` is every bump in order. */
  class DropCounter {
    var counts: map<string, nat>
    ghost var log: seq<string>

    ghost predicate Valid()
      reads this
    {
      forall r :: (if r in counts then counts[r] else 0) == multiset(log)[r]
    }

    constructor ()
      ensures Valid() && log == []
    {
      counts, log := map[], [];
    }

    method Bump(reason: string)
      requires Valid()
      modifies this
      ensures Valid() && log == old(log) + [reason]
    {
      counts := counts[reason := (if reason in counts then counts[reason] else 0) + 1];
      log := log + [reason];
    }
  }

  /** The deduplication keys shared by the chunks of a batch. */
  class SeenKeys {
    var keys: set<string>

    constructor ()
      ensures keys == {}
    {
      keys := {};
    }
  }

  method NormalizeEntities(ops: Ops, raw: seq<RawEntity>, drops: DropCounter) returns (out: seq<Entity>)
    requires drops.Valid()
    modifies drops
    ensures drops.Valid() && old(drops.log) <= drops.log
    ensures out == Entities(ops, raw)
    ensures |out| + |drops.log| == |raw| + |old(drops.log)|
  {
    out := [];
    var seen: set<string> := {};
    for i := 0 to |raw|
      invariant drops.Valid() && old(drops.log) <= drops.log
      invariant out == Entities(ops, raw[..i])
      invariant |out| + |drops.log| == i + |old(drops.log)|
      invariant forall name :: ops.lower(name) in seen <==> Knows(ops, out, name)
    {
      assert raw[..i + 1][..i] == raw[..i];
      var name := ops.text(raw[i].name);
      if name == "" {
        drops.Bump("empty_entity_name");
      } else if ops.lower(name) in seen {
        drops.Bump("duplicate_entity");
      } else {
        seen := seen + {ops.lower(name)};
        var entityType := ops.trim(raw[i].entityType);
        var e := Entity(name, if entityType == "" then DEFAULT_ENTITY_TYPE else entityType);
        KnowsSnoc(ops, out, e);
        out := out + [e];
      }
    }
    assert raw[..|raw|] == raw;
  }

  lemma KnowsSnoc(ops: Ops, es: seq<Entity>, e: Entity)
    ensures forall name :: Knows(ops, es + [e], name) <==> Knows(ops, es, name) || ops.lower(name) == ops.lower(e.name)
  {
    forall name ensures Knows(ops, es + [e], name) <==> Knows(ops, es, name) || ops.lower(name) == ops.lower(e.name) {
      if Knows(ops, es, name) {
        KnowsMore(ops, es, es + [e], name);
      }
      assert (es + [e])[|es|] == e;
    }
  }

  method NormalizeRelations(ops: Ops, raw: seq<RawRelation>, fallback: Option<int>, drops: DropCounter)
    returns (out: seq<Relation>)
    requires drops.Valid()
    modifies drops
    ensures drops.Valid() && old(drops.log) <= drops.log
    ensures out == Relations(ops, raw, fallback)
    ensures |out| + |drops.log| == |raw| + |old(drops.log)|
  {
    hide JudgeRelation;
    out := [];
    for i := 0 to |raw|
      invariant drops.Valid() && old(drops.log) <= drops.log
      invariant out == Relations(ops, raw[..i], fallback)
      invariant |out| + |drops.log| == i + |old(drops.log)|
    {
      assert raw[..i + 1][..i] == raw[..i];
      match JudgeRelation(ops, raw[i], fallback) {
        case Accept(relation) => out := out + [relation];
        case Reject(reason) => drops.Bump(reason);
      }
    }
    assert raw[..|raw|] == raw;
  }

  method Backfill(ops: Ops, entities: seq<Entity>, relations: seq<Relation>, drops: DropCounter)
    returns (out: seq<Entity>)
    requires drops.Valid()
    modifies drops
    ensures drops.Valid() && old(drops.log) <= drops.log
    ensures out == Backfilled(ops, entities, Mentions(relations))
  {
    out := entities;
    for i := 0 to |relations|
      invariant drops.Valid() && old(drops.log) <= drops.log
      invariant out == Backfilled(ops, entities, Mentions(relations[..i]))
    {
      assert relations[..i + 1][..i] == relations[..i];
      ghost var done, names := Mentions(relations[..i]), [relations[i].subject, relations[i].target];
      BackfilledConcat(ops, entities, done, names);
      out := BackfillNames(ops, out, [relations[i].subject, relations[i].target], drops);
    }
    assert relations[..|relations|] == relations;
  }

  method BackfillNames(ops: Ops, entities: seq<Entity>, names: seq<string>, drops: DropCounter)
    returns (out: seq<Entity>)
    requires drops.Valid()
    modifies drops
    ensures drops.Valid() && old(drops.log) <= drops.log
    ensures out == Backfilled(ops, entities, names)
  {
    out := entities;
    for n := 0 to |names|
      invariant drops.Valid() && old(drops.log) <= drops.log
      invariant out == Backfilled(ops, entities, names[..n])
    {
      assert names[..n + 1][..n] == names[..n];
      if !Knows(ops, out, names[n]) && ops.words(names[n]) <= ENTITY_NAME_MAX_WORDS {
        out := out + [Entity(names[n], DEFAULT_ENTITY_TYPE)];
        drops.Bump("entity_added_from_relation");
      }
    }
    assert names[..|names|] == names;
  }

  lemma {:induction false} BackfilledConcat(ops: Ops, es: seq<Entity>, a: seq<string>, b: seq<string>)
    ensures Backfilled(ops, es, a + b) == Backfilled(ops, Backfilled(ops, es, a), b)
    decreases |b|
  {
    if b == [] {
      assert a + b == a;
    } else {
      var n := |b| - 1;
      assert (a + b)[..|a| + n] == a + b[..n];
      BackfilledConcat(ops, es, a, b[..n]);
    }
  }

  /** First phase, with the counter and the shared key record updated in place. */
  method NormalizeBaseFacts(ops: Ops, raws: seq<RawMemory>, drops: DropCounter, seen: SeenKeys)
    returns (out: seq<BaseFact>)
    requires drops.Valid()
    modifies drops, seen
    ensures drops.Valid() && out == Base(ops, raws, old(seen.keys))
    ensures seen.keys == KeysAfter(ops, raws, old(seen.keys))
    ensures drops.log == old(drops.log) + Drops(ops, raws, old(seen.keys))
    ensures |out| + |drops.log| == |raws| + |old(drops.log)|
  {
    out := [];
    for i := 0 to |raws|
      invariant drops.Valid() && out == Base(ops, raws[..i], old(seen.keys))
      invariant seen.keys == KeysAfter(ops, raws[..i], old(seen.keys))
      invariant drops.log == old(drops.log) + Drops(ops, raws[..i], old(seen.keys))
    {
      assert raws[..i + 1][..i] == raws[..i];
      match Judge(ops, raws[i]) {
        case Drop(reason) =>
          drops.Bump(reason);
        case Keep(fact) =>
          var key := KeyOf(ops, fact);
          if key in seen.keys {
            drops.Bump("duplicate_fact");
          } else {
            seen.keys := seen.keys + {key};
            out := out + [BaseFact(i, fact.eventTime, fact)];
          }
      }
    }
    assert raws[..|raws|] == raws;
    EveryMemoryAccounted(ops, raws, old(seen.keys));
  }

  /** Results by memory index: the first one in range wins, the others are counted as drops. */
  method IndexGraphs(graphs: seq<Graph>, count: nat, drops: DropCounter) returns (byIndex: map<int, Graph>)
    requires drops.Valid()
    modifies drops
    ensures drops.Valid() && old(drops.log) <= drops.log
    ensures forall i :: (if i in byIndex then Some(byIndex[i]) else None) == FirstGraph(graphs, i, count)
    ensures |byIndex| + |drops.log| == |graphs| + |old(drops.log)|
  {
    byIndex := map[];
    for n := 0 to |graphs|
      invariant drops.Valid() && old(drops.log) <= drops.log
      invariant forall i :: (if i in byIndex then Some(byIndex[i]) else None) == FirstGraph(graphs[..n], i, count)
      invariant |byIndex| + |drops.log| == n + |old(drops.log)|
    {
      assert graphs[..n + 1][..n] == graphs[..n];
      var g := graphs[n];
      if g.index.None? || g.index.value < 0 || g.index.value >= count {
        drops.Bump("invalid_graph_index");
      } else if g.index.value in byIndex {
        drops.Bump("duplicate_graph_index");
      } else {
        byIndex := byIndex[g.index.value := g];
      }
    }
    assert graphs[..|graphs|] == graphs;
  }

  lemma WithGraphIs(ops: Ops, f: Fact, graph: Option<Graph>, fallback: Option<int>)
    ensures var es := if graph.Some? then graph.value.entities else [];
            var rs := Relations(ops, if graph.Some? then graph.value.relations else [], fallback);
            WithGraph(ops, f, graph, fallback)
            == f.(entities := Backfilled(ops, Entities(ops, es), Mentions(rs)), relations := rs)
  {
  }

  method AttachGraphToFacts(ops: Ops, base: seq<BaseFact>, count: nat, graphs: seq<Graph>, drops: DropCounter)
    returns (out: seq<Fact>)
    requires drops.Valid()
    modifies drops
    ensures drops.Valid() && old(drops.log) <= drops.log
    ensures out == Attached(ops, base, count, graphs)
  {
    hide WithGraph, Backfilled, Entities, Relations, Mentions, FirstGraph;
    var byIndex := IndexGraphs(graphs, count, drops);
    out := [];
    for k := 0 to |base|
      invariant drops.Valid() && old(drops.log) <= drops.log
      invariant out == Attached(ops, base[..k], count, graphs)
    {
      assert base[..k + 1][..k] == base[..k];
      var i := base[k].rawIndex;
      WithGraphIs(ops, base[k].fact, FirstGraph(graphs, i, count), base[k].fallback);
      var rawEntities := if i in byIndex then byIndex[i].entities else [];
      var rawRelations := if i in byIndex then byIndex[i].relations else [];
      var entities := NormalizeEntities(ops, rawEntities, drops);
      var relations := NormalizeRelations(ops, rawRelations, base[k].fallback, drops);
      entities := Backfill(ops, entities, relations, drops);
      out := out + [base[k].fact.(entities := entities, relations := relations)];
    }
    assert base[..|base|] == base;
  }

  /** The temporal fallback rewrites event times between the two phases. */
  method FillEventTimes(infer: string -> Option<int>, base: seq<BaseFact>) returns (out: seq<BaseFact>)
    ensures out == FilledBase(infer, base)
  {
    out := base;
    for i := 0 to |base|
      invariant |out| == |base|
      invariant forall k :: 0 <= k < i ==> out[k] == base[k].(fact := Filled(infer, base[k].fact))
      invariant forall k :: i <= k < |base| ==> out[k] == base[k]
    {
      if out[i].fact.eventTime.None? {
        out := out[i := out[i].(fact := out[i].fact.(eventTime := infer(out[i].fact.content)))];
      }
    }
  }

  /** The two phases as the pipeline runs them, against the fused reference. */
  method NormalizeChunk(ops: Ops, raws: seq<RawMemory>, graphs: seq<Graph>, infer: string -> Option<int>,
                        drops: DropCounter, seen: SeenKeys) returns (facts: seq<Fact>)
    requires drops.Valid()
    modifies drops, seen
    ensures drops.Valid()
    ensures facts == FilledFacts(infer, Fused(ops, raws, |raws|, graphs, old(seen.keys)))
    ensures seen.keys == KeysAfter(ops, raws, old(seen.keys))
  {
    var base := NormalizeBaseFacts(ops, raws, drops, seen);
    var filled := FillEventTimes(infer, base);
    facts := AttachGraphToFacts(ops, filled, |raws|, graphs, drops);
    SplitEqualsFused(ops, raws, |raws|, graphs, old(seen.keys), infer);
  }
}

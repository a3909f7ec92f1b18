/**
 * What normalisation keeps and drops, in terms of the raw answers of the model alone: which
 * positions survive, in which order, and what is made of each.
 */
module Survivors {
  import opened Common
  import opened Keys
  import opened Normalize

  function StatedDate(ops: Ops, value: Option<string>): Option<int> {
    match value
    case Some(text) => ops.parse(text)
    case None => None
  }

  predicate Between(score: Option<real>, low: real, high: real) {
    score.Some? && low <= score.value <= high
  }

  /* ---- memories ---- */

  predicate Wordy(ops: Ops, raw: RawMemory) {
    var content := ops.text(raw.content);
    content != "" && ops.words(content) >= 3 && !ops.generic(content)
  }

  predicate Typed(raw: RawMemory) {
    || raw.memoryType == Some("semantic") || raw.memoryType == Some("episode") || raw.memoryType == Some("viewpoint")
  }

  predicate Voiced(raw: RawMemory) {
    || raw.role == None || raw.role == Some("user") || raw.role == Some("assistant")
    || raw.role == Some("system") || raw.role == Some("tool")
  }

  predicate Admissible(ops: Ops, raw: RawMemory) {
    Wordy(ops, raw) && Typed(raw) && Voiced(raw) && Between(raw.importance, 0.2, 1.0)
  }

  predicate MadeOf(ops: Ops, f: Fact, raw: RawMemory) {
    && f.content == ops.text(raw.content) && Some(f.memoryType) == raw.memoryType
    && Some(f.importance) == raw.importance && f.role == raw.role && f.eventTime == StatedDate(ops, raw.eventTime)
  }

  /** The filters apply in this order, and the first that fails names the reason. */
  lemma JudgeReasons(ops: Ops, raw: RawMemory)
    ensures var v := Judge(ops, raw);
            && (v.Keep? <==> Admissible(ops, raw))
            && (v == Drop("low_signal_content") <==> !Wordy(ops, raw))
            && (v == Drop("invalid_memory_type") <==> Wordy(ops, raw) && !Typed(raw))
            && (v == Drop("invalid_speaker_role") <==> Wordy(ops, raw) && Typed(raw) && !Voiced(raw))
            && (v == Drop("low_importance_score") <==>
                  Wordy(ops, raw) && Typed(raw) && Voiced(raw) && !Between(raw.importance, 0.2, 1.0))
    ensures Judge(ops, raw).Keep? ==>
              var f := Judge(ops, raw).fact;
              MadeOf(ops, f, raw) && f.entities == [] && f.relations == []
  {
  }

  /** The four fields a memory is deduplicated by, joined. */
  function KeyFor(ops: Ops, raw: RawMemory): string {
    var time := StatedDate(ops, raw.eventTime);
    ops.lower(ops.text(raw.content)) + "|" + raw.memoryType.GetOr("") + "|" + raw.role.GetOr("") + "|"
    + if time.Some? then ops.iso(time.value) else ""
  }

  lemma KeyForIs(ops: Ops, f: Fact, raw: RawMemory)
    requires MadeOf(ops, f, raw)
    ensures KeyOf(ops, f) == KeyFor(ops, raw)
  {
  }

  /** The memory is admissible, and neither the record nor an earlier admissible memory has its key. */
  predicate Survives(ops: Ops, raws: seq<RawMemory>, seen: set<string>, i: nat)
    requires i < |raws|
  {
    && Admissible(ops, raws[i]) && KeyFor(ops, raws[i]) !in seen
    && (forall j :: 0 <= j < i && Admissible(ops, raws[j]) ==> KeyFor(ops, raws[j]) != KeyFor(ops, raws[i]))
  }

  /** `base` is made, in order, of exactly the memories that survive. */
  ghost predicate Selected(ops: Ops, raws: seq<RawMemory>, seen: set<string>, base: seq<BaseFact>, at: seq<nat>) {
    && Ascending(at, |raws|) && |at| == |base|
    && (forall i :: 0 <= i < |raws| ==> (i in at <==> Survives(ops, raws, seen, i)))
    && (forall k :: 0 <= k < |at| ==> BaseOf(ops, base[k], at[k], raws[at[k]]))
  }

  lemma {:induction false} KeysAre(ops: Ops, raws: seq<RawMemory>, seen: set<string>, key: string)
    ensures key in KeysAfter(ops, raws, seen) <==>
            key in seen || exists j :: 0 <= j < |raws| && Admissible(ops, raws[j]) && KeyFor(ops, raws[j]) == key
    decreases |raws|
  {
    if raws != [] {
      var n := |raws| - 1;
      KeysAre(ops, raws[..n], seen, key);
      JudgeReasons(ops, raws[n]);
      hide Admissible, KeyFor, Judge;
      assert forall j :: 0 <= j < n ==> raws[..n][j] == raws[j];
      if Judge(ops, raws[n]).Keep? {
        KeyForIs(ops, Judge(ops, raws[n]).fact, raws[n]);
      }
    }
  }

  predicate BaseOf(ops: Ops, b: BaseFact, i: nat, raw: RawMemory) {
    && b.rawIndex == i && b.fallback == StatedDate(ops, raw.eventTime)
    && MadeOf(ops, b.fact, raw) && b.fact.entities == [] && b.fact.relations == []
  }

  lemma SelectedSnoc(ops: Ops, raws: seq<RawMemory>, seen: set<string>, base: seq<BaseFact>, at: seq<nat>)
    requires raws != [] && Selected(ops, raws[..|raws| - 1], seen, base, at)
    ensures !Survives(ops, raws, seen, |raws| - 1) ==> Selected(ops, raws, seen, base, at)
    ensures forall b :: Survives(ops, raws, seen, |raws| - 1) && BaseOf(ops, b, |raws| - 1, raws[|raws| - 1]) ==>
              Selected(ops, raws, seen, base + [b], at + [|raws| - 1])
  {
    var n := |raws| - 1;
    AscendingSnoc(at, n);
    hide Ascending, BaseOf, Admissible, KeyFor;
    assert forall j :: 0 <= j < n ==> raws[..n][j] == raws[j];
    assert forall i :: 0 <= i < n ==> (Survives(ops, raws, seen, i) <==> Survives(ops, raws[..n], seen, i));
    hide Survives;
  }

  /** The base facts are, in order, the first of every key among the admissible memories. */
  lemma {:induction false} BaseSelects(ops: Ops, raws: seq<RawMemory>, seen: set<string>) returns (at: seq<nat>)
    ensures Selected(ops, raws, seen, Base(ops, raws, seen), at)
    decreases |raws|
  {
    if raws == [] {
      at := [];
    } else {
      var n := |raws| - 1;
      at := BaseSelects(ops, raws[..n], seen);
      JudgeReasons(ops, raws[n]);
      KeysAre(ops, raws[..n], seen, KeyFor(ops, raws[n]));
      SelectedSnoc(ops, raws, seen, Base(ops, raws[..n], seen), at);
      hide Admissible, KeyFor, Judge, MadeOf, Selected, KeysAfter;
      var v := Judge(ops, raws[n]);
      assert forall j :: 0 <= j < n ==> raws[..n][j] == raws[j];
      if v.Keep? {
        KeyForIs(ops, v.fact, raws[n]);
        BaseDates(ops, v.fact, raws[n]);
        assert BaseOf(ops, BaseFact(n, v.fact.eventTime, v.fact), n, raws[n]);
      }
      at := if Survives(ops, raws, seen, n) then at + [n] else at;
    }
  }

  lemma BaseDates(ops: Ops, f: Fact, raw: RawMemory)
    requires MadeOf(ops, f, raw)
    ensures f.eventTime == StatedDate(ops, raw.eventTime)
  {
  }

  /* ---- relations ---- */

  predicate Relates(ops: Ops, raw: RawRelation) {
    var subject, target := ops.text(raw.subject), ops.text(raw.target);
    && RelationName(ops.chars, raw.relation) != "" && subject != "" && target != ""
    && ops.lower(subject) != ops.lower(target) && Between(raw.confidence, 0.7, 1.0)
  }

  /** The normalised relation points from the raw subject to the raw object. */
  predicate RelationOf(ops: Ops, r: Relation, raw: RawRelation, fallback: Option<int>) {
    var stated := StatedDate(ops, raw.validFrom);
    && r.subject == ops.text(raw.subject) && r.target == ops.text(raw.target)
    && r.relation == RelationName(ops.chars, raw.relation) && Some(r.confidence) == raw.confidence
    && r.validFrom == (if stated.Some? then stated else fallback)
  }

  lemma JudgeRelationIs(ops: Ops, raw: RawRelation, fallback: Option<int>)
    ensures var v := JudgeRelation(ops, raw, fallback);
            && (v.Accept? <==> Relates(ops, raw))
            && (v.Accept? ==> RelationOf(ops, v.relation, raw, fallback))
  {
  }

  ghost predicate RelationsFrom(ops: Ops, raw: seq<RawRelation>, fallback: Option<int>, rs: seq<Relation>,
                                at: seq<nat>)
  {
    && Ascending(at, |raw|) && |at| == |rs|
    && (forall i :: 0 <= i < |raw| ==> (i in at <==> Relates(ops, raw[i])))
    && (forall k :: 0 <= k < |at| ==> RelationOf(ops, rs[k], raw[at[k]], fallback))
  }

  lemma RelationsSnoc(ops: Ops, raw: seq<RawRelation>, fallback: Option<int>, rs: seq<Relation>, at: seq<nat>)
    requires raw != [] && RelationsFrom(ops, raw[..|raw| - 1], fallback, rs, at)
    ensures !Relates(ops, raw[|raw| - 1]) ==> RelationsFrom(ops, raw, fallback, rs, at)
    ensures forall r :: Relates(ops, raw[|raw| - 1]) && RelationOf(ops, r, raw[|raw| - 1], fallback) ==>
              RelationsFrom(ops, raw, fallback, rs + [r], at + [|raw| - 1])
  {
    hide Relates, RelationOf;
    var n := |raw| - 1;
    AscendingSnoc(at, n);
    hide Ascending;
    assert forall j :: 0 <= j < n ==> raw[..n][j] == raw[j];
  }

  /** Normalising relations keeps, in order, exactly those that relate two names with confidence. */
  lemma {:induction false} RelationsSelect(ops: Ops, raw: seq<RawRelation>, fallback: Option<int>)
    returns (at: seq<nat>)
    ensures RelationsFrom(ops, raw, fallback, Relations(ops, raw, fallback), at)
    decreases |raw|
  {
    if raw == [] {
      at := [];
    } else {
      var n := |raw| - 1;
      at := RelationsSelect(ops, raw[..n], fallback);
      var rs := Relations(ops, raw[..n], fallback);
      JudgeRelationIs(ops, raw[n], fallback);
      RelationsSnoc(ops, raw, fallback, rs, at);
      hide Relates, RelationOf, JudgeRelation, RelationsFrom;
      assert rs + [] == rs;
      at := if Relates(ops, raw[n]) then at + [n] else at;
    }
  }

  /* ---- entities ---- */

  predicate NamedFirst(ops: Ops, raw: seq<RawEntity>, i: nat)
    requires i < |raw|
  {
    var name := ops.text(raw[i].name);
    name != "" && forall j :: 0 <= j < i ==> !IsCalled(ops, raw[j], name)
  }

  predicate EntityOf(ops: Ops, e: Entity, raw: RawEntity) {
    var entityType := ops.trim(raw.entityType);
    e.name == ops.text(raw.name) && e.entityType == if entityType == "" then "object" else entityType
  }

  ghost predicate EntitiesFrom(ops: Ops, raw: seq<RawEntity>, es: seq<Entity>, at: seq<nat>) {
    && Ascending(at, |raw|) && |at| == |es|
    && (forall i :: 0 <= i < |raw| ==> (i in at <==> NamedFirst(ops, raw, i)))
    && (forall k :: 0 <= k < |at| ==> EntityOf(ops, es[k], raw[at[k]]))
  }

  predicate IsCalled(ops: Ops, raw: RawEntity, name: string) {
    ops.text(raw.name) != "" && ops.lower(ops.text(raw.name)) == ops.lower(name)
  }

  lemma EntityStep(ops: Ops, raw: seq<RawEntity>, name: string)
    requires raw != []
    ensures var last, init := raw[|raw| - 1], Entities(ops, raw[..|raw| - 1]);
            Knows(ops, Entities(ops, raw), name) <==> Knows(ops, init, name) || IsCalled(ops, last, name)
  {
    var init, es := Entities(ops, raw[..|raw| - 1]), Entities(ops, raw);
    var called := ops.text(raw[|raw| - 1].name);
    if |es| > |init| {
      KnowsSnoc(ops, init, es[|init|]);
    } else if called != "" {
      var k :| 0 <= k < |init| && ops.lower(init[k].name) == ops.lower(called);
    }
  }

  lemma {:induction false} KnowsAre(ops: Ops, raw: seq<RawEntity>, name: string)
    ensures Knows(ops, Entities(ops, raw), name) <==> exists j :: 0 <= j < |raw| && IsCalled(ops, raw[j], name)
    decreases |raw|
  {
    if raw != [] {
      var n := |raw| - 1;
      KnowsAre(ops, raw[..n], name);
      EntityStep(ops, raw, name);
      hide Knows, Entities, IsCalled;
      assert forall j :: 0 <= j < n ==> raw[..n][j] == raw[j];
    }
  }

  lemma EntitiesSnoc(ops: Ops, raw: seq<RawEntity>, es: seq<Entity>, at: seq<nat>)
    requires raw != [] && EntitiesFrom(ops, raw[..|raw| - 1], es, at)
    ensures !NamedFirst(ops, raw, |raw| - 1) ==> EntitiesFrom(ops, raw, es, at)
    ensures forall e :: NamedFirst(ops, raw, |raw| - 1) && EntityOf(ops, e, raw[|raw| - 1]) ==>
              EntitiesFrom(ops, raw, es + [e], at + [|raw| - 1])
  {
    var n := |raw| - 1;
    AscendingSnoc(at, n);
    hide Ascending, EntityOf;
    assert forall j :: 0 <= j < n ==> raw[..n][j] == raw[j];
    assert forall i :: 0 <= i < n ==> (NamedFirst(ops, raw, i) <==> NamedFirst(ops, raw[..n], i));
    hide NamedFirst;
  }

  /** Normalising entities keeps, in order, the first of every name. */
  lemma {:induction false} EntitiesSelect(ops: Ops, raw: seq<RawEntity>) returns (at: seq<nat>)
    ensures EntitiesFrom(ops, raw, Entities(ops, raw), at)
    decreases |raw|
  {
    if raw == [] {
      at := [];
    } else {
      var n := |raw| - 1;
      at := EntitiesSelect(ops, raw[..n]);
      KnowsAre(ops, raw[..n], ops.text(raw[n].name));
      EntitiesSnoc(ops, raw, Entities(ops, raw[..n]), at);
      hide EntitiesFrom, Knows;
      assert forall j :: 0 <= j < n ==> raw[..n][j] == raw[j];
      at := if NamedFirst(ops, raw, n) then at + [n] else at;
    }
  }

  /** Entity `k` was added for a name the relations mention and nobody had named before. */
  ghost predicate IsStub(ops: Ops, all: seq<Entity>, names: seq<string>, k: nat)
    requires k < |all|
  {
    && all[k].name in names && all[k].entityType == "object" && ops.words(all[k].name) <= 5
    && !Knows(ops, all[..k], all[k].name)
  }

  /** Backfilling keeps the entities in front, and adds nothing but stubs. */
  lemma {:induction false} BackfilledAdds(ops: Ops, es: seq<Entity>, names: seq<string>)
    ensures es <= Backfilled(ops, es, names)
    ensures forall k :: |es| <= k < |Backfilled(ops, es, names)| ==> IsStub(ops, Backfilled(ops, es, names), names, k)
    decreases |names|
  {
    if names != [] {
      var n := |names| - 1;
      BackfilledAdds(ops, es, names[..n]);
      var init, all := Backfilled(ops, es, names[..n]), Backfilled(ops, es, names);
      forall k | |es| <= k < |all| ensures IsStub(ops, all, names, k) {
        assert all[..k] == init[..k];
        if k < |init| {
          assert IsStub(ops, init, names[..n], k);
        } else {
          assert init[..k] == init;
        }
      }
    }
  }

  lemma {:induction false} MentionsAre(relations: seq<Relation>, name: string)
    ensures name in Mentions(relations) <==>
            exists k :: 0 <= k < |relations| && (relations[k].subject == name || relations[k].target == name)
  {
    if relations != [] {
      var n := |relations| - 1;
      MentionsAre(relations[..n], name);
      assert forall k :: 0 <= k < n ==> relations[..n][k] == relations[k];
      assert Mentions(relations) == Mentions(relations[..n]) + [relations[n].subject, relations[n].target];
    }
  }

  /* ---- a chunk's facts, with their graph ---- */

  /** Graph result `g` is the first one for memory `i`. */
  predicate IsFirstFor(graphs: seq<Graph>, i: int, g: int) {
    && 0 <= g < |graphs| && graphs[g].index == Some(i)
    && (forall h :: 0 <= h < g ==> graphs[h].index != Some(i))
  }

  lemma {:induction false} FirstGraphIs(graphs: seq<Graph>, i: int, count: nat)
    requires 0 <= i < count
    ensures FirstGraph(graphs, i, count).None? <==> forall g :: 0 <= g < |graphs| ==> graphs[g].index != Some(i)
    ensures forall g :: IsFirstFor(graphs, i, g) ==> FirstGraph(graphs, i, count) == Some(graphs[g])
    decreases |graphs|
  {
    if graphs != [] {
      var n := |graphs| - 1;
      FirstGraphIs(graphs[..n], i, count);
      assert forall g :: 0 <= g < n ==> graphs[..n][g] == graphs[g];
      forall g | IsFirstFor(graphs, i, g) ensures FirstGraph(graphs, i, count) == Some(graphs[g]) {
        if g < n {
          assert IsFirstFor(graphs[..n], i, g);
        }
      }
    }
  }

  /** A result out of range belongs to no memory. */
  lemma {:induction false} NoGraphOutside(graphs: seq<Graph>, i: int, count: nat)
    requires !(0 <= i < count)
    ensures FirstGraph(graphs, i, count).None?
    decreases |graphs|
  {
    if graphs != [] {
      NoGraphOutside(graphs[..|graphs| - 1], i, count);
    }
  }

  /** `f` is what the chunk stores for memory `raw` with this graph result, the temporal fallback included. */
  ghost predicate StoredFor(ops: Ops, infer: string -> Option<int>, f: Fact, raw: RawMemory, graph: Option<Graph>) {
    var stated := StatedDate(ops, raw.eventTime);
    && MadeOf(ops, f.(eventTime := stated), raw)
    && f.eventTime == (if stated.Some? then stated else infer(f.content))
    && (match graph
        case None => f.entities == [] && f.relations == []
        case Some(g) =>
          && (exists at :: RelationsFrom(ops, g.relations, stated, f.relations, at))
          && (exists n, at :: 0 <= n <= |f.entities| && EntitiesFrom(ops, g.entities, f.entities[..n], at)
                && forall k :: n <= k < |f.entities| ==> IsStub(ops, f.entities, Mentions(f.relations), k)))
  }

  lemma WithGraphStores(ops: Ops, infer: string -> Option<int>, f: Fact, raw: RawMemory, graph: Option<Graph>)
    requires MadeOf(ops, f, raw)
    ensures StoredFor(ops, infer, Filled(infer, WithGraph(ops, f, graph, f.eventTime)), raw, graph)
  {
    var whole := Filled(infer, WithGraph(ops, f, graph, f.eventTime));
    if graph.Some? {
      var g := graph.value;
      var rs, es := Relations(ops, g.relations, f.eventTime), Entities(ops, g.entities);
      var rat := RelationsSelect(ops, g.relations, f.eventTime);
      var eat := EntitiesSelect(ops, g.entities);
      BackfilledAdds(ops, es, Mentions(rs));
      hide RelationsFrom, EntitiesFrom, IsStub, Relations, Entities, Backfilled, Mentions;
      assert RelationsFrom(ops, g.relations, f.eventTime, whole.relations, rat);
      assert whole.entities[..|es|] == es;
      assert EntitiesFrom(ops, g.entities, whole.entities[..|es|], eat);
    }
  }

  /**
   * The facts of a chunk are, in order, one for each memory that survives: its own content,
   * type, score and role, its stated date or else the inferred one, and the relations and
   * entities of the first graph result for it.
   */
  lemma {:induction false} FactsSelect(ops: Ops, raws: seq<RawMemory>, graphs: seq<Graph>, seen: set<string>,
                                       infer: string -> Option<int>) returns (at: seq<nat>)
    ensures var facts := FilledFacts(infer, Fused(ops, raws, |raws|, graphs, seen));
            && Ascending(at, |raws|) && |at| == |facts|
            && (forall i :: 0 <= i < |raws| ==> (i in at <==> Survives(ops, raws, seen, i)))
            && (forall k :: 0 <= k < |at| ==>
                  StoredFor(ops, infer, facts[k], raws[at[k]], FirstGraph(graphs, at[k], |raws|)))
  {
    var fused, base := Fused(ops, raws, |raws|, graphs, seen), Base(ops, raws, seen);
    at := BaseSelects(ops, raws, seen);
    FusedFacts(ops, raws, |raws|, graphs, seen);
    hide Fused, Base, WithGraph, Filled, StoredFor, MadeOf, Survives;
    forall k | 0 <= k < |at|
      ensures StoredFor(ops, infer, Filled(infer, fused[k]), raws[at[k]], FirstGraph(graphs, at[k], |raws|))
    {
      assert BaseOf(ops, base[k], at[k], raws[at[k]]);
      BaseDates(ops, base[k].fact, raws[at[k]]);
      WithGraphStores(ops, infer, base[k].fact, raws[at[k]], FirstGraph(graphs, at[k], |raws|));
    }
  }
}

/**
 * From facts to graph edges: collecting entity names, resolving them against the entity
 * table of one space, and inserting one edge per distinct triple.
 */
module Edges {
  import opened Common
  import opened Keys
  import opened Normalize

  const RESOLVE_THRESHOLD := 90
  const MIN_FUZZY_LENGTH := 3

  function Casefold(ops: Ops, s: string): string {
    ops.text(ops.lower(s))
  }

  /* ---- the entities of a batch of facts ---- */

  function AllEntities(facts: seq<Fact>): seq<Entity> {
    if facts == [] then [] else AllEntities(facts[..|facts| - 1]) + facts[|facts| - 1].entities
  }

  predicate Named(ops: Ops, es: seq<Entity>, key: string) {
    exists k :: 0 <= k < |es| && Casefold(ops, es[k].name) == key
  }

  /** The first entity of every folded name. */
  function Unique(ops: Ops, es: seq<Entity>): seq<Entity> {
    if es == [] then []
    else
      var init, last := Unique(ops, es[..|es| - 1]), es[|es| - 1];
      if Named(ops, init, Casefold(ops, last.name)) then init else init + [last]
  }

  ghost predicate DistinctFolds(ops: Ops, es: seq<Entity>) {
    forall j, k :: 0 <= j < k < |es| ==> Casefold(ops, es[j].name) != Casefold(ops, es[k].name)
  }

  lemma NamedSnoc(ops: Ops, es: seq<Entity>, e: Entity)
    ensures forall key :: Named(ops, es + [e], key) <==> Named(ops, es, key) || key == Casefold(ops, e.name)
  {
    forall key ensures Named(ops, es + [e], key) <==> Named(ops, es, key) || key == Casefold(ops, e.name) {
      if Named(ops, es, key) {
        var k :| 0 <= k < |es| && Casefold(ops, es[k].name) == key;
        assert (es + [e])[k] == es[k];
      }
      assert (es + [e])[|es|] == e;
    }
  }

  /** Collecting loses no name and repeats none. */
  lemma {:induction false} UniqueKeepsNames(ops: Ops, es: seq<Entity>)
    ensures DistinctFolds(ops, Unique(ops, es))
    ensures forall key :: Named(ops, Unique(ops, es), key) <==> Named(ops, es, key)
    decreases |es|
  {
    if es != [] {
      var init, last := es[..|es| - 1], es[|es| - 1];
      UniqueKeepsNames(ops, init);
      NamedSnoc(ops, init, last);
      NamedSnoc(ops, Unique(ops, init), last);
      assert es == init + [last];
    }
  }

  /** Entity `i` is the first whose name, in lower case and normal white space, reads like this. */
  predicate FirstOfFold(ops: Ops, es: seq<Entity>, i: nat)
    requires i < |es|
  {
    forall j :: 0 <= j < i ==> ops.text(ops.lower(es[j].name)) != ops.text(ops.lower(es[i].name))
  }

  ghost predicate FirstsOf(ops: Ops, es: seq<Entity>, out: seq<Entity>, at: seq<nat>) {
    && Ascending(at, |es|) && |at| == |out|
    && (forall i :: 0 <= i < |es| ==> (i in at <==> FirstOfFold(ops, es, i)))
    && (forall k :: 0 <= k < |at| ==> out[k] == es[at[k]])
  }

  lemma FirstsSnoc(ops: Ops, es: seq<Entity>, out: seq<Entity>, at: seq<nat>)
    requires es != [] && FirstsOf(ops, es[..|es| - 1], out, at)
    ensures if FirstOfFold(ops, es, |es| - 1) then FirstsOf(ops, es, out + [es[|es| - 1]], at + [|es| - 1])
            else FirstsOf(ops, es, out, at)
  {
    var n := |es| - 1;
    AscendingSnoc(at, n);
    hide Ascending;
    assert forall j :: 0 <= j < n ==> es[..n][j] == es[j];
    assert forall i :: 0 <= i < n ==> (FirstOfFold(ops, es, i) <==> FirstOfFold(ops, es[..n], i));
    hide FirstOfFold;
  }

  /** Collecting keeps, in order, exactly the first entity of every folded name. */
  lemma {:induction false} UniqueSelects(ops: Ops, es: seq<Entity>) returns (at: seq<nat>)
    ensures FirstsOf(ops, es, Unique(ops, es), at)
    decreases |es|
  {
    if es == [] {
      at := [];
    } else {
      var n := |es| - 1;
      at := UniqueSelects(ops, es[..n]);
      UniqueKeepsNames(ops, es[..n]);
      FirstsSnoc(ops, es, Unique(ops, es[..n]), at);
      hide FirstsOf;
      assert forall j :: 0 <= j < n ==> es[..n][j] == es[j];
      assert Named(ops, es[..n], Casefold(ops, es[n].name)) <==> !FirstOfFold(ops, es, n);
      at := if FirstOfFold(ops, es, n) then at + [n] else at;
    }
  }

  lemma {:induction false} UniqueConcat(ops: Ops, a: seq<Entity>, b: seq<Entity>)
    ensures Unique(ops, Unique(ops, a) + b) == Unique(ops, a + b)
    decreases |b|
  {
    if b == [] {
      UniqueOfUnique(ops, a);
      assert a + b == a && Unique(ops, a) + b == Unique(ops, a);
    } else {
      var n := |b| - 1;
      UniqueConcat(ops, a, b[..n]);
      assert (a + b)[..|a + b| - 1] == a + b[..n];
      assert (Unique(ops, a) + b)[..|Unique(ops, a) + b| - 1] == Unique(ops, a) + b[..n];
    }
  }

  lemma {:induction false} UniqueOfUnique(ops: Ops, es: seq<Entity>)
    ensures Unique(ops, Unique(ops, es)) == Unique(ops, es)
    decreases |es|
  {
    if es != [] {
      var init := Unique(ops, es[..|es| - 1]);
      UniqueOfUnique(ops, es[..|es| - 1]);
      if |Unique(ops, es)| > |init| {
        assert Unique(ops, es)[..|init|] == init;
      }
    }
  }

  method CollectUniqueEntities(ops: Ops, facts: seq<Fact>) returns (out: seq<Entity>)
    ensures out == Unique(ops, AllEntities(facts))
  {
    out := [];
    for i := 0 to |facts|
      invariant out == Unique(ops, AllEntities(facts[..i]))
    {
      assert facts[..i + 1][..i] == facts[..i];
      UniqueConcat(ops, AllEntities(facts[..i]), facts[i].entities);
      UniqueOfUnique(ops, AllEntities(facts[..i]));
      out := CollectMore(ops, out, facts[i].entities);
    }
    assert facts[..|facts|] == facts;
  }

  method CollectMore(ops: Ops, known: seq<Entity>, es: seq<Entity>) returns (out: seq<Entity>)
    requires Unique(ops, known) == known
    ensures out == Unique(ops, known + es)
  {
    out := known;
    assert known + es[..0] == known;
    for k := 0 to |es|
      invariant out == Unique(ops, known + es[..k])
    {
      assert (known + es[..k + 1])[..|known| + k] == known + es[..k];
      if !Named(ops, out, Casefold(ops, es[k].name)) {
        out := out + [es[k]];
      }
    }
    assert es[..|es|] == es;
  }

  /* ---- resolving names against the table ---- */

  datatype Candidate = Candidate(id: nat, name: string)

  datatype Resolved = Resolved(extracted: Entity, entityId: nat, isNew: bool)

  /** Some row has this name up to case. */
  predicate Taken(lower: string -> string, rows: map<nat, string>, name: string) {
    exists id :: id in rows && lower(rows[id]) == lower(name)
  }

  lemma TakenStays(lower: string -> string, rows: map<nat, string>, more: map<nat, string>, name: string)
    requires Taken(lower, rows, name) && Extends(rows, more)
    ensures Taken(lower, more, name)
  {
  }

  /** Rows and next id after one bulk insert that ignores conflicts, name by name. */
  function Inserted(lower: string -> string, rows: map<nat, string>, nextId: nat, names: seq<string>)
    : (map<nat, string>, nat)
  {
    if names == [] then (rows, nextId)
    else
      var (before, next) := Inserted(lower, rows, nextId, names[..|names| - 1]);
      InsertedOne(lower, before, next, names[|names| - 1])
  }

  function InsertedOne(lower: string -> string, rows: map<nat, string>, nextId: nat, name: string)
    : (map<nat, string>, nat)
  {
    if Taken(lower, rows, name) then (rows, nextId) else (rows[nextId := name], nextId + 1)
  }

  lemma InsertedNone(lower: string -> string, rows: map<nat, string>, nextId: nat)
    ensures Inserted(lower, rows, nextId, []) == (rows, nextId)
  {
  }

  lemma InsertedNext(lower: string -> string, rows: map<nat, string>, nextId: nat, names: seq<string>, i: nat)
    requires i < |names|
    ensures var (before, next) := Inserted(lower, rows, nextId, names[..i]);
            Inserted(lower, rows, nextId, names[..i + 1]) == InsertedOne(lower, before, next, names[i])
  {
    assert names[..i + 1][..i] == names[..i];
  }

  /** The entity table of one space; `lower` is the database's own lower case. */
  class EntityTable {
    const lower: string -> string
    var rows: map<nat, string>
    var nextId: nat

    ghost predicate Valid()
      reads this
    {
      && (forall id :: id in rows ==> id < nextId)
      && (forall i, j :: i in rows && j in rows && lower(rows[i]) == lower(rows[j]) ==> i == j)
    }

    constructor (lower: string -> string)
      ensures Valid() && rows == map[] && this.lower == lower
    {
      this.lower, rows, nextId := lower, map[], 1;
    }

    /** Insert, ignoring a conflict with the unique index on the lower-cased name. */
    method InsertOrIgnore(name: string)
      requires Valid()
      modifies this`rows, this`nextId
      ensures Valid() && Taken(lower, rows, name)
      ensures (rows, nextId) == InsertedOne(lower, old(rows), old(nextId), name)
      ensures forall id :: id in rows && id !in old(rows) ==> rows[id] == name
      ensures Extends(old(rows), rows)
      ensures forall other :: Taken(lower, old(rows), other) ==> Taken(lower, rows, other)
    {
      if !Taken(lower, rows, name) {
        rows, nextId := rows[nextId := name], nextId + 1;
        assert rows[nextId - 1] == name;
      }
      forall other | Taken(lower, old(rows), other) ensures Taken(lower, rows, other) {
        TakenStays(lower, old(rows), rows, other);
      }
    }

    /** One bulk insert, here or by the ingestion of another source. */
    method InsertAll(names: seq<string>)
      requires Valid()
      modifies this`rows, this`nextId
      ensures Valid() && Extends(old(rows), rows)
      ensures (rows, nextId) == Inserted(lower, old(rows), old(nextId), names)
      ensures forall id :: id in rows && id !in old(rows) ==> rows[id] in names
      ensures forall k :: 0 <= k < |names| ==> Taken(lower, rows, names[k])
    {
      hide Taken, Inserted, InsertedOne, Valid;
      assert Inserted(lower, rows, nextId, names[..0]) == (rows, nextId) by {
        InsertedNone(lower, rows, nextId);
      }
      for i := 0 to |names|
        invariant Valid() && Extends(old(rows), rows)
        invariant (rows, nextId) == Inserted(lower, old(rows), old(nextId), names[..i])
        invariant forall id :: id in rows && id !in old(rows) ==> rows[id] in names
        invariant forall k :: 0 <= k < i ==> Taken(lower, rows, names[k])
      {
        InsertedNext(lower, old(rows), old(nextId), names, i);
        InsertOrIgnore(names[i]);
      }
      assert names[..|names|] == names;
    }

    /** The stored rows among the ids the vector index returned. */
    method FetchCandidatePool(near: seq<nat>) returns (pool: seq<Candidate>)
      ensures forall k :: 0 <= k < |pool| ==>
                pool[k].id in near && pool[k].id in rows && pool[k].name == rows[pool[k].id]
      ensures forall id :: id in near && id in rows ==> Candidate(id, rows[id]) in pool
      ensures forall j, k :: 0 <= j < k < |pool| ==> pool[j].id != pool[k].id
    {
      pool := [];
      for i := 0 to |near|
        invariant forall k :: 0 <= k < |pool| ==>
                    pool[k].id in near && pool[k].id in rows && pool[k].name == rows[pool[k].id]
        invariant forall k :: 0 <= k < i && near[k] in rows ==> Candidate(near[k], rows[near[k]]) in pool
        invariant forall j, k :: 0 <= j < k < |pool| ==> pool[j].id != pool[k].id
      {
        if near[i] in rows && Candidate(near[i], rows[near[i]]) !in pool {
          pool := pool + [Candidate(near[i], rows[near[i]])];
        }
      }
    }
  }

  predicate Exact(ops: Ops, name: string, pool: seq<Candidate>, k: int) {
    0 <= k < |pool| && ops.text(ops.lower(pool[k].name)) == ops.text(ops.lower(name))
  }

  /** Candidate `k` has the best score, and is the first that has it. */
  ghost predicate Best(score: (string, string) -> int, name: string, pool: seq<Candidate>, k: int) {
    && 0 <= k < |pool|
    && (forall j :: 0 <= j < |pool| ==> score(name, pool[j].name) <= score(name, pool[k].name))
    && (forall j :: 0 <= j < k ==> score(name, pool[j].name) < score(name, pool[k].name))
  }

  /** What a fuzzy match may be: the only exact one, or with none the best one at ninety or more. */
  ghost predicate Matches(ops: Ops, score: (string, string) -> int, name: string, pool: seq<Candidate>, k: int) {
    || (Exact(ops, name, pool, k) && forall j :: Exact(ops, name, pool, j) ==> j == k)
    || (&& (forall j :: !Exact(ops, name, pool, j))
        && |ops.text(ops.lower(name))| >= 3
        && Best(score, name, pool, k) && score(name, pool[k].name) >= 90)
  }

  method FuzzyResolve(ops: Ops, score: (string, string) -> int, name: string, pool: seq<Candidate>)
    returns (r: Option<nat>)
    ensures r.Some? ==> exists k :: Matches(ops, score, name, pool, k) && pool[k].id == r.value
    ensures r.None? ==> forall k :: !Matches(ops, score, name, pool, k)
  {
    var exact, last := 0, 0;
    for k := 0 to |pool|
      invariant exact == 0 ==> forall j :: 0 <= j < k ==> !Exact(ops, name, pool, j)
      invariant exact > 0 ==> last < k && Exact(ops, name, pool, last)
      invariant exact == 1 ==> forall j :: 0 <= j < k && Exact(ops, name, pool, j) ==> j == last
      invariant exact > 1 ==> exists j :: 0 <= j < last && Exact(ops, name, pool, j)
    {
      if Casefold(ops, pool[k].name) == Casefold(ops, name) {
        assert Exact(ops, name, pool, k);
        exact, last := exact + 1, k;
      }
    }
    if exact == 1 {
      assert Matches(ops, score, name, pool, last);
      return Some(pool[last].id);
    }
    if exact > 1 || |Casefold(ops, name)| < MIN_FUZZY_LENGTH || pool == [] {
      return None;
    }
    var best := 0;
    for k := 1 to |pool|
      invariant 0 <= best < k
      invariant forall j :: 0 <= j < k ==> score(name, pool[j].name) <= score(name, pool[best].name)
      invariant forall j :: 0 <= j < best ==> score(name, pool[j].name) < score(name, pool[best].name)
    {
      if score(name, pool[k].name) > score(name, pool[best].name) {
        best := k;
      }
    }
    assert Best(score, name, pool, best);
    if score(name, pool[best].name) < RESOLVE_THRESHOLD {
      return None;
    }
    assert Matches(ops, score, name, pool, best);
    r := Some(pool[best].id);
  }

  /* ---- one id for every collected entity ---- */

  /** The database and the program agree on the folded form of a name. */
  predicate Folds(ops: Ops, lower: string -> string, name: string) {
    lower(name) == Casefold(ops, name)
  }

  ghost predicate AllFold(ops: Ops, lower: string -> string, rows: map<nat, string>) {
    forall id :: id in rows ==> Folds(ops, lower, rows[id])
  }

  /** The authoritative read finds a row for `name` among the folded names it asks for. */
  predicate Found(ops: Ops, lower: string -> string, rows: map<nat, string>, asked: set<string>, name: string) {
    exists id :: id in rows && lower(rows[id]) in asked && Casefold(ops, rows[id]) == Casefold(ops, name)
  }

  lemma FoundWhenFolding(ops: Ops, lower: string -> string, rows: map<nat, string>, asked: set<string>, name: string)
    requires Taken(lower, rows, name) && Folds(ops, lower, name) && AllFold(ops, lower, rows)
    requires Casefold(ops, name) in asked
    ensures Found(ops, lower, rows, asked, name)
  {
  }

  function Asked(ops: Ops, names: seq<string>): set<string> {
    set n | 0 <= n < |names| :: Casefold(ops, names[n])
  }

  /** The authoritative read finds a row for every name of the batch. */
  ghost predicate AllFound(ops: Ops, lower: string -> string, rows: map<nat, string>, names: seq<string>) {
    forall n :: 0 <= n < |names| ==> Found(ops, lower, rows, Asked(ops, names), names[n])
  }

  /** The failing input: a batch of one name new to the space succeeds if and only if both sides fold it alike. */
  lemma NewNameFoundIffFolds(ops: Ops, lower: string -> string, name: string, id: nat)
    ensures AllFound(ops, lower, Inserted(lower, map[], id, [name]).0, [name]) <==> Folds(ops, lower, name)
  {
    assert [name][..0] == [] && [name][0] == name;
    assert Inserted(lower, map[], id, [name]).0 == map[id := name];
    assert Asked(ops, [name]) == {Casefold(ops, name)} by {
      assert Casefold(ops, [name][0]) in Asked(ops, [name]);
    }
    assert Found(ops, lower, map[id := name], Asked(ops, [name]), [name][0]) <==> Folds(ops, lower, name) by {
      assert id in map[id := name];
    }
  }

  /** In a larger batch agreement is not needed: another name of the batch may ask for the row. */
  lemma DisagreeingNameFound(ops: Ops, lower: string -> string, name: string, helper: string, i: nat, j: nat)
    requires i != j && Casefold(ops, helper) == lower(name) && !Folds(ops, lower, name)
    ensures Found(ops, lower, map[i := name, j := helper], Asked(ops, [name, helper]), name)
  {
    var rows := map[i := name, j := helper];
    assert i in rows && rows[i] == name;
    assert Casefold(ops, [name, helper][1]) in Asked(ops, [name, helper]);
  }

  /** What id an entity gets: its match in the pool, or without one a row with the same folded name. */
  ghost predicate Assigned(ops: Ops, score: (string, string) -> int, pool: seq<Candidate>, rows: map<nat, string>,
                           e: Entity, id: nat)
  {
    && id in rows
    && if Unmatchable(ops, score, pool, e)
       then ops.text(ops.lower(rows[id])) == ops.text(ops.lower(e.name))
       else exists k :: Matches(ops, score, e.name, pool, k) && pool[k].id == id
  }

  /** Rows by folded name; with several, any one of them. */
  method IdByName(ops: Ops, rows: map<nat, string>, ids: set<nat>) returns (m: map<string, nat>)
    requires ids <= rows.Keys
    ensures forall key :: key in m ==> m[key] in ids && Casefold(ops, rows[m[key]]) == key
    ensures forall id :: id in ids ==> Casefold(ops, rows[id]) in m
  {
    m := map[];
    var todo := ids;
    while exists id :: id in todo
      invariant todo <= ids
      invariant forall key :: key in m ==> m[key] in ids && Casefold(ops, rows[m[key]]) == key
      invariant forall id :: id in ids && id !in todo ==> Casefold(ops, rows[id]) in m
      decreases |todo|
    {
      var id :| id in todo;
      m, todo := m[Casefold(ops, rows[id]) := id], todo - {id};
    }
  }

  ghost predicate FromPool(ops: Ops, score: (string, string) -> int, pool: seq<Candidate>, e: Entity,
                           o: Option<Resolved>)
  {
    && o.Some? && o.value.extracted == e && !o.value.isNew
    && exists k :: Matches(ops, score, e.name, pool, k) && pool[k].id == o.value.entityId
  }

  ghost predicate FromTable(ops: Ops, idByName: map<string, nat>, before: set<nat>, e: Entity, o: Option<Resolved>) {
    var key := Casefold(ops, e.name);
    && o.Some? && o.value.extracted == e
    && key in idByName && o.value.entityId == idByName[key]
    && (o.value.isNew <==> idByName[key] !in before)
  }

  ghost predicate NamesFold(ops: Ops, lower: string -> string, names: seq<string>) {
    forall n :: 0 <= n < |names| ==> Folds(ops, lower, names[n])
  }

  ghost predicate Unmatchable(ops: Ops, score: (string, string) -> int, pool: seq<Candidate>, e: Entity) {
    forall k :: !Matches(ops, score, e.name, pool, k)
  }

  /** The names the pool resolves none of, in order. */
  ghost function Unmatched(ops: Ops, score: (string, string) -> int, pool: seq<Candidate>, es: seq<Entity>)
    : seq<string>
  {
    if es == [] then []
    else
      var last := es[|es| - 1];
      Unmatched(ops, score, pool, es[..|es| - 1]) + if Unmatchable(ops, score, pool, last) then [last.name] else []
  }

  function NamesAt(es: seq<Entity>, at: seq<nat>): seq<string>
    requires forall n :: 0 <= n < |at| ==> at[n] < |es|
  {
    seq(|at|, n requires 0 <= n < |at| => es[at[n]].name)
  }

  /** First pass: entities the pool resolves, and the indexes of the others. */
  method ResolveFromPool(ops: Ops, score: (string, string) -> int, extracted: seq<Entity>, pool: seq<Candidate>,
                         out: array<Option<Resolved>>) returns (unresolved: seq<nat>)
    requires out.Length == |extracted|
    modifies out
    ensures forall n :: 0 <= n < |unresolved| ==> unresolved[n] < |extracted|
    ensures forall i :: 0 <= i < |extracted| && i !in unresolved ==> FromPool(ops, score, pool, extracted[i], out[i])
    ensures NamesAt(extracted, unresolved) == Unmatched(ops, score, pool, extracted)
    ensures forall n :: 0 <= n < |unresolved| ==> Unmatchable(ops, score, pool, extracted[unresolved[n]])
  {
    hide Matches, Casefold, Exact;
    unresolved := [];
    for i := 0 to |extracted|
      invariant forall n :: 0 <= n < |unresolved| ==> unresolved[n] < i
      invariant NamesAt(extracted, unresolved) == Unmatched(ops, score, pool, extracted[..i])
      invariant forall n :: 0 <= n < |unresolved| ==> Unmatchable(ops, score, pool, extracted[unresolved[n]])
      invariant forall j :: 0 <= j < i && j !in unresolved ==> FromPool(ops, score, pool, extracted[j], out[j])
    {
      assert extracted[..i + 1][..i] == extracted[..i];
      var fuzzy := FuzzyResolve(ops, score, extracted[i].name, pool);
      assert fuzzy.None? <==> Unmatchable(ops, score, pool, extracted[i]);
      if fuzzy.Some? {
        out[i] := Some(Resolved(extracted[i], fuzzy.value, false));
      } else {
        assert NamesAt(extracted, unresolved + [i]) == NamesAt(extracted, unresolved) + [extracted[i].name];
        unresolved := unresolved + [i];
      }
    }
    assert extracted[..|extracted|] == extracted;
  }

  /** One bulk insert of the unresolved names and one authoritative read of their rows. */
  method Upsert(ops: Ops, table: EntityTable, names: seq<string>) returns (idByName: map<string, nat>)
    requires table.Valid()
    modifies table`rows, table`nextId
    ensures table.Valid() && Extends(old(table.rows), table.rows)
    ensures (table.rows, table.nextId) == Inserted(table.lower, old(table.rows), old(table.nextId), names)
    ensures forall id :: id in table.rows && id !in old(table.rows) ==> table.rows[id] in names
    ensures forall k :: 0 <= k < |names| ==> Taken(table.lower, table.rows, names[k])
    ensures forall key :: key in idByName ==>
              idByName[key] in table.rows && Casefold(ops, table.rows[idByName[key]]) == key
    ensures forall n :: 0 <= n < |names| ==>
              (Casefold(ops, names[n]) in idByName
               <==> Found(ops, table.lower, table.rows, Asked(ops, names), names[n]))
  {
    hide Casefold, Inserted;
    table.InsertAll(names);
    var asked := Asked(ops, names);
    var authoritative := set id | id in table.rows && table.lower(table.rows[id]) in asked;
    idByName := IdByName(ops, table.rows, authoritative);
    forall n | 0 <= n < |names|
      ensures Casefold(ops, names[n]) in idByName <==> Found(ops, table.lower, table.rows, asked, names[n])
    {
    }
  }

  /** Where both sides fold alike, the condition holds. */
  lemma FoldingSuffices(ops: Ops, lower: string -> string, rows: map<nat, string>, more: map<nat, string>,
                        names: seq<string>)
    requires AllFold(ops, lower, rows) && NamesFold(ops, lower, names) && Extends(rows, more)
    requires forall id :: id in more && id !in rows ==> more[id] in names
    requires forall k :: 0 <= k < |names| ==> Taken(lower, more, names[k])
    ensures AllFold(ops, lower, more) && AllFound(ops, lower, more, names)
  {
    InsertKeepsFolding(ops, lower, rows, more, names);
    forall n | 0 <= n < |names| ensures Found(ops, lower, more, Asked(ops, names), names[n]) {
      FoundWhenFolding(ops, lower, more, Asked(ops, names), names[n]);
    }
  }

  lemma {:induction false} UnmatchedAreExtracted(
      ops: Ops, score: (string, string) -> int, pool: seq<Candidate>, es: seq<Entity>, lower: string -> string)
    requires forall i :: 0 <= i < |es| ==> Folds(ops, lower, es[i].name)
    ensures NamesFold(ops, lower, Unmatched(ops, score, pool, es))
    decreases |es|
  {
    hide Folds;
    if es != [] {
      UnmatchedAreExtracted(ops, score, pool, es[..|es| - 1], lower);
    }
  }

  lemma InsertKeepsFolding(ops: Ops, lower: string -> string, rows: map<nat, string>, more: map<nat, string>,
                           names: seq<string>)
    requires AllFold(ops, lower, rows) && NamesFold(ops, lower, names) && Extends(rows, more)
    requires forall id :: id in more && id !in rows ==> more[id] in names
    ensures AllFold(ops, lower, more)
  {
  }

  /** Second pass over the unresolved entities; `ok` is false on the error for a missing row. */
  method AssignFromTable(ops: Ops, idByName: map<string, nat>, before: set<nat>, extracted: seq<Entity>,
                         unresolved: seq<nat>, out: array<Option<Resolved>>) returns (ok: bool)
    requires out.Length == |extracted|
    requires forall n :: 0 <= n < |unresolved| ==> unresolved[n] < |extracted|
    modifies out
    ensures forall i :: 0 <= i < |extracted| && i !in unresolved ==> out[i] == old(out[i])
    ensures ok ==> forall n :: 0 <= n < |unresolved| ==>
              FromTable(ops, idByName, before, extracted[unresolved[n]], out[unresolved[n]])
    ensures !ok ==> exists n :: 0 <= n < |unresolved| && Casefold(ops, extracted[unresolved[n]].name) !in idByName
  {
    for n := 0 to |unresolved|
      invariant forall i :: 0 <= i < |extracted| && i !in unresolved ==> out[i] == old(out[i])
      invariant forall m :: 0 <= m < n ==>
        FromTable(ops, idByName, before, extracted[unresolved[m]], out[unresolved[m]])
    {
      var e := extracted[unresolved[n]];
      var key := Casefold(ops, e.name);
      if key !in idByName {
        return false;
      }
      out[unresolved[n]] := Some(Resolved(e, idByName[key], idByName[key] !in before));
    }
    ok := true;
  }

  /** Only ids that were not rows before count as new. */
  predicate NewIds(before: map<nat, string>, r: seq<Resolved>) {
    forall i :: 0 <= i < |r| ==> (r[i].isNew <==> r[i].entityId !in before)
  }

  ghost predicate FullyAssigned(ops: Ops, score: (string, string) -> int, pool: seq<Candidate>, rows: map<nat, string>,
                                extracted: seq<Entity>, r: seq<Resolved>)
  {
    && |r| == |extracted|
    && (forall i :: 0 <= i < |extracted| ==>
          r[i].extracted == extracted[i] && Assigned(ops, score, pool, rows, extracted[i], r[i].entityId))
  }

  /**
   * Resolution of a batch against the table, with other sources inserting in between. It
   * succeeds if and only if, once both inserts are done, every name the pool did not match
   * has some row that one of those names asks for and that folds to it. Folding alike in the
   * database and the program is enough for that.
   */
  method ResolveEntities(ops: Ops, table: EntityTable, score: (string, string) -> int, extracted: seq<Entity>,
                         near: seq<nat>, others: seq<string>)
    returns (r: Option<seq<Resolved>>, ghost pool: seq<Candidate>)
    requires table.Valid()
    modifies table`rows, table`nextId
    ensures table.Valid() && Extends(old(table.rows), table.rows)
    ensures r.Some? ==> FullyAssigned(ops, score, pool, table.rows, extracted, r.value)
    ensures var names := Unmatched(ops, score, pool, extracted);
            var (between, next) := Inserted(table.lower, old(table.rows), old(table.nextId), others);
            && table.rows == Inserted(table.lower, between, next, names).0
            && (r.Some? <==> AllFound(ops, table.lower, table.rows, names))
            && (r.Some? ==> NewIds(between, r.value))
    ensures AllFold(ops, table.lower, old(table.rows)) && NamesFold(ops, table.lower, others) &&
            (forall i :: 0 <= i < |extracted| ==> Folds(ops, table.lower, extracted[i].name)) ==>
              r.Some? && AllFold(ops, table.lower, table.rows)
  {
    hide AllFound, Inserted, FullyAssigned, Unmatched;
    var candidates := table.FetchCandidatePool(near);
    pool := candidates;
    table.InsertAll(others);
    if AllFold(ops, table.lower, old(table.rows)) && NamesFold(ops, table.lower, others) {
      InsertKeepsFolding(ops, table.lower, old(table.rows), table.rows, others);
    }
    r := ResolveAgainst(ops, table, score, extracted, candidates);
  }

  method ResolveAgainst(ops: Ops, table: EntityTable, score: (string, string) -> int, extracted: seq<Entity>,
                        pool: seq<Candidate>) returns (r: Option<seq<Resolved>>)
    requires table.Valid() && forall k :: 0 <= k < |pool| ==> pool[k].id in table.rows
    modifies table`rows, table`nextId
    ensures table.Valid() && Extends(old(table.rows), table.rows)
    ensures r.Some? ==> FullyAssigned(ops, score, pool, table.rows, extracted, r.value)
    ensures var names := Unmatched(ops, score, pool, extracted);
            && table.rows == Inserted(table.lower, old(table.rows), old(table.nextId), names).0
            && (r.Some? <==> AllFound(ops, table.lower, table.rows, names))
            && (r.Some? ==> NewIds(old(table.rows), r.value))
    ensures AllFold(ops, table.lower, old(table.rows)) &&
            (forall i :: 0 <= i < |extracted| ==> Folds(ops, table.lower, extracted[i].name)) ==>
              r.Some? && AllFold(ops, table.lower, table.rows)
  {
    hide Inserted, Unmatched, AllFound, FullyAssigned, AllFold, Folds, Taken;
    ghost var names;
    r, names := ResolveUnmatched(ops, table, score, extracted, pool);
    if AllFold(ops, table.lower, old(table.rows)) &&
       forall i :: 0 <= i < |extracted| ==> Folds(ops, table.lower, extracted[i].name)
    {
      UnmatchedAreExtracted(ops, score, pool, extracted, table.lower);
      FoldingSuffices(ops, table.lower, old(table.rows), table.rows, names);
    }
  }

  method ResolveUnmatched(ops: Ops, table: EntityTable, score: (string, string) -> int, extracted: seq<Entity>,
                          pool: seq<Candidate>) returns (r: Option<seq<Resolved>>, ghost names: seq<string>)
    requires table.Valid() && forall k :: 0 <= k < |pool| ==> pool[k].id in table.rows
    modifies table`rows, table`nextId
    ensures table.Valid() && Extends(old(table.rows), table.rows)
    ensures names == Unmatched(ops, score, pool, extracted)
    ensures table.rows == Inserted(table.lower, old(table.rows), old(table.nextId), names).0
    ensures forall id :: id in table.rows && id !in old(table.rows) ==> table.rows[id] in names
    ensures forall k :: 0 <= k < |names| ==> Taken(table.lower, table.rows, names[k])
    ensures r.Some? <==> AllFound(ops, table.lower, table.rows, names)
    ensures r.Some? ==> FullyAssigned(ops, score, pool, table.rows, extracted, r.value)
    ensures r.Some? ==> NewIds(old(table.rows), r.value)
  {
    hide Inserted, Unmatched, AllFound, Found, FromPool, FromTable, Assigned, Taken, Casefold, NamesAt, Asked;
    var out := new Option<Resolved>[|extracted|](_ => None);
    var unresolved := ResolveFromPool(ops, score, extracted, pool, out);
    var wanted := NamesAt(extracted, unresolved);
    names := wanted;
    var before := table.rows.Keys;
    var idByName := Upsert(ops, table, wanted);
    var ok := AssignFromTable(ops, idByName, before, extracted, unresolved, out);
    var all := out[..];
    AssignedIffFound(ops, table.lower, table.rows, idByName, before, extracted, unresolved, all, ok);
    if !ok {
      return None, names;
    }
    AllAssigned(ops, score, pool, table.rows, extracted, unresolved, idByName, before, all);
    r := Some(seq(|extracted|, i requires 0 <= i < |extracted| => all[i].value));
  }

  lemma AssignedIffFound(ops: Ops, lower: string -> string, rows: map<nat, string>, idByName: map<string, nat>,
                         before: set<nat>, extracted: seq<Entity>, unresolved: seq<nat>,
                         all: seq<Option<Resolved>>, ok: bool)
    requires |all| == |extracted| && forall n :: 0 <= n < |unresolved| ==> unresolved[n] < |extracted|
    requires var names := NamesAt(extracted, unresolved);
             forall n :: 0 <= n < |names| ==>
               (Casefold(ops, names[n]) in idByName <==> Found(ops, lower, rows, Asked(ops, names), names[n]))
    requires ok ==> forall n :: 0 <= n < |unresolved| ==>
               FromTable(ops, idByName, before, extracted[unresolved[n]], all[unresolved[n]])
    requires !ok ==> exists n :: 0 <= n < |unresolved| && Casefold(ops, extracted[unresolved[n]].name) !in idByName
    ensures ok <==> AllFound(ops, lower, rows, NamesAt(extracted, unresolved))
  {
    hide Casefold, Found, Asked;
    var names := NamesAt(extracted, unresolved);
    if ok {
      forall n | 0 <= n < |names| ensures Found(ops, lower, rows, Asked(ops, names), names[n]) {
        assert FromTable(ops, idByName, before, extracted[unresolved[n]], all[unresolved[n]]);
      }
    } else {
      var n :| 0 <= n < |unresolved| && Casefold(ops, extracted[unresolved[n]].name) !in idByName;
      assert names[n] == extracted[unresolved[n]].name;
    }
  }

  lemma AllAssigned(ops: Ops, score: (string, string) -> int, pool: seq<Candidate>, rows: map<nat, string>,
                    extracted: seq<Entity>, unresolved: seq<nat>, idByName: map<string, nat>, before: set<nat>,
                    all: seq<Option<Resolved>>)
    requires |all| == |extracted| && forall n :: 0 <= n < |unresolved| ==> unresolved[n] < |extracted|
    requires forall k :: 0 <= k < |pool| ==> pool[k].id in rows
    requires forall i :: 0 <= i < |extracted| && i !in unresolved ==> FromPool(ops, score, pool, extracted[i], all[i])
    requires forall n :: 0 <= n < |unresolved| ==>
               FromTable(ops, idByName, before, extracted[unresolved[n]], all[unresolved[n]])
    requires forall n :: 0 <= n < |unresolved| ==> Unmatchable(ops, score, pool, extracted[unresolved[n]])
    requires forall k :: 0 <= k < |pool| ==> pool[k].id in before
    requires forall key :: key in idByName ==> idByName[key] in rows && Casefold(ops, rows[idByName[key]]) == key
    ensures forall i :: 0 <= i < |extracted| ==>
              && all[i].Some? && all[i].value.extracted == extracted[i]
              && Assigned(ops, score, pool, rows, extracted[i], all[i].value.entityId)
              && (all[i].value.isNew <==> all[i].value.entityId !in before)
  {
  }

  ghost predicate LastOfName(ops: Ops, resolved: seq<Resolved>, i: int) {
    && 0 <= i < |resolved|
    && (forall j :: i < j < |resolved| ==>
          Casefold(ops, resolved[j].extracted.name) != Casefold(ops, resolved[i].extracted.name))
  }

  /** The name map edges are built with; a name resolved twice keeps its last id. */
  method BuildNameToIdMap(ops: Ops, resolved: seq<Resolved>) returns (ids: map<string, nat>)
    ensures forall key :: key in ids ==>
              exists i :: 0 <= i < |resolved| && Casefold(ops, resolved[i].extracted.name) == key
    ensures forall i :: 0 <= i < |resolved| ==> Casefold(ops, resolved[i].extracted.name) in ids
    ensures forall i :: LastOfName(ops, resolved, i) ==>
              ids[Casefold(ops, resolved[i].extracted.name)] == resolved[i].entityId
  {
    ids := map[];
    for n := 0 to |resolved|
      invariant forall key :: key in ids ==> exists i :: 0 <= i < n && Casefold(ops, resolved[i].extracted.name) == key
      invariant forall i :: 0 <= i < n ==> Casefold(ops, resolved[i].extracted.name) in ids
      invariant forall i :: LastOfName(ops, resolved[..n], i) ==>
                  ids[Casefold(ops, resolved[i].extracted.name)] == resolved[i].entityId
    {
      LastOfNameSnoc(ops, resolved, n);
      ids := ids[Casefold(ops, resolved[n].extracted.name) := resolved[n].entityId];
    }
    assert resolved[..|resolved|] == resolved;
  }

  lemma LastOfNameSnoc(ops: Ops, resolved: seq<Resolved>, n: nat)
    requires n < |resolved|
    ensures forall i :: LastOfName(ops, resolved[..n + 1], i) ==>
              i == n
              || (&& LastOfName(ops, resolved[..n], i)
                  && Casefold(ops, resolved[i].extracted.name) != Casefold(ops, resolved[n].extracted.name))
  {
  }

  /* ---- edges ---- */

  datatype Ingested = Ingested(memoryId: int, fact: Fact)

  /** One relation of one ingested memory. */
  datatype Link = Link(memoryId: int, relation: Relation, eventTime: Option<int>)

  datatype EdgeRow = EdgeRow(
    source: nat, relation: string, target: nat, memoryId: int, validFrom: Option<int>, confidence: real)

  function LinksOfFact(memoryId: int, fact: Fact): seq<Link> {
    seq(|fact.relations|, k requires 0 <= k < |fact.relations| => Link(memoryId, fact.relations[k], fact.eventTime))
  }

  function LinksOf(ingested: seq<Ingested>): seq<Link> {
    if ingested == [] then []
    else
      var last := ingested[|ingested| - 1];
      LinksOf(ingested[..|ingested| - 1]) + LinksOfFact(last.memoryId, last.fact)
  }

  /** The edge a relation asks for: both ends resolved, to different entities. */
  function RowOf(ops: Ops, ids: map<string, nat>, l: Link): Option<EdgeRow> {
    var s, t := Casefold(ops, l.relation.subject), Casefold(ops, l.relation.target);
    if s !in ids || t !in ids || ids[s] == ids[t] then None
    else
      Some(EdgeRow(ids[s], l.relation.relation, ids[t], l.memoryId,
                   if l.relation.validFrom.Some? then l.relation.validFrom else l.eventTime, l.relation.confidence))
  }

  predicate HasTriple(rows: seq<EdgeRow>, s: nat, relation: string, t: nat) {
    exists k :: 0 <= k < |rows| && rows[k].source == s && rows[k].relation == relation && rows[k].target == t
  }

  predicate Repeats(rows: seq<EdgeRow>, row: EdgeRow) {
    HasTriple(rows, row.source, row.relation, row.target)
  }

  function EdgeRows(ops: Ops, ids: map<string, nat>, links: seq<Link>): seq<EdgeRow> {
    if links == [] then []
    else
      var init, row := EdgeRows(ops, ids, links[..|links| - 1]), RowOf(ops, ids, links[|links| - 1]);
      if row.None? || Repeats(init, row.value) then init else init + [row.value]
  }

  lemma HasTripleSnoc(rows: seq<EdgeRow>, row: EdgeRow)
    ensures forall s, r, t :: HasTriple(rows + [row], s, r, t)
              <==> HasTriple(rows, s, r, t) || (s == row.source && r == row.relation && t == row.target)
  {
    forall s, r, t
      ensures HasTriple(rows + [row], s, r, t)
              <==> HasTriple(rows, s, r, t) || (s == row.source && r == row.relation && t == row.target)
    {
      if HasTriple(rows, s, r, t) {
        var k :| 0 <= k < |rows| && rows[k].source == s && rows[k].relation == r && rows[k].target == t;
        assert (rows + [row])[k] == rows[k];
      }
      assert (rows + [row])[|rows|] == row;
    }
  }

  /** No two edges share a triple. */
  ghost predicate DistinctTriples(rows: seq<EdgeRow>) {
    forall j, k :: 0 <= j < k < |rows| ==>
      !(rows[j].source == rows[k].source && rows[j].relation == rows[k].relation && rows[j].target == rows[k].target)
  }

  /** The relation asks for an edge between these two, under this name. */
  predicate AsksTriple(ops: Ops, ids: map<string, nat>, l: Link, source: nat, relation: string, target: nat) {
    var s, t := ops.text(ops.lower(l.relation.subject)), ops.text(ops.lower(l.relation.target));
    && s in ids && t in ids && source == ids[s] && target == ids[t] && source != target
    && relation == l.relation.relation
  }

  /** The relation asks for this very row: its own memory, confidence and date, or else the date of its fact. */
  predicate Asks(ops: Ops, ids: map<string, nat>, l: Link, row: EdgeRow) {
    && AsksTriple(ops, ids, l, row.source, row.relation, row.target)
    && row.memoryId == l.memoryId && row.confidence == l.relation.confidence
    && row.validFrom == (match l.relation.validFrom case Some(date) => Some(date) case None => l.eventTime)
  }

  lemma RowOfIs(ops: Ops, ids: map<string, nat>, l: Link)
    ensures RowOf(ops, ids, l).Some? ==> Asks(ops, ids, l, RowOf(ops, ids, l).value)
    ensures forall s, r, t :: AsksTriple(ops, ids, l, s, r, t) ==>
              RowOf(ops, ids, l).Some? && var row := RowOf(ops, ids, l).value;
              row.source == s && row.relation == r && row.target == t
  {
  }

  /** Relation `n` asks for the row, and no earlier relation asks for its triple. */
  ghost predicate FirstAsker(ops: Ops, ids: map<string, nat>, links: seq<Link>, n: int, row: EdgeRow) {
    && 0 <= n < |links| && Asks(ops, ids, links[n], row)
    && (forall m :: 0 <= m < n ==> !AsksTriple(ops, ids, links[m], row.source, row.relation, row.target))
  }

  /**
   * The edges are exactly the distinct triples asked for, without self-loops, each from the
   * relation that asked first, with its memory, date and confidence.
   */
  lemma EdgesAreExact(ops: Ops, ids: map<string, nat>, links: seq<Link>)
    ensures var rows := EdgeRows(ops, ids, links);
            && DistinctTriples(rows)
            && (forall k :: 0 <= k < |rows| ==>
                  rows[k].source != rows[k].target && exists n :: FirstAsker(ops, ids, links, n, rows[k]))
    ensures forall n, s, r, t :: 0 <= n < |links| && AsksTriple(ops, ids, links[n], s, r, t) ==>
              HasTriple(EdgeRows(ops, ids, links), s, r, t)
  {
    var rows := EdgeRows(ops, ids, links);
    RowsAreExact(ops, ids, links);
    hide EdgeRows, Asks, AsksTriple, RowOf, DistinctTriples;
    forall k | 0 <= k < |rows| ensures exists n :: FirstAsker(ops, ids, links, n, rows[k]) {
      var n :| FirstAsks(ops, ids, links, n, rows[k]);
      RowOfIs(ops, ids, links[n]);
      forall m | 0 <= m < n ensures !AsksTriple(ops, ids, links[m], rows[k].source, rows[k].relation, rows[k].target) {
        RowOfIs(ops, ids, links[m]);
      }
      assert FirstAsker(ops, ids, links, n, rows[k]);
    }
    forall n, s, r, t | 0 <= n < |links| && AsksTriple(ops, ids, links[n], s, r, t) ensures HasTriple(rows, s, r, t) {
      RowOfIs(ops, ids, links[n]);
    }
  }

  lemma {:induction false} RowsAreExact(ops: Ops, ids: map<string, nat>, links: seq<Link>)
    ensures var rows := EdgeRows(ops, ids, links);
            && DistinctTriples(rows)
            && (forall k :: 0 <= k < |rows| ==> rows[k].source != rows[k].target)
            && (forall k :: 0 <= k < |rows| ==> HasAsker(ops, ids, links, rows[k]))
    ensures forall n :: 0 <= n < |links| && RowOf(ops, ids, links[n]).Some? ==>
              Repeats(EdgeRows(ops, ids, links), RowOf(ops, ids, links[n]).value)
    decreases |links|
  {
    if links != [] {
      var n := |links| - 1;
      var before := links[..n];
      RowsAreExact(ops, ids, before);
      var init, rows, row := EdgeRows(ops, ids, before), EdgeRows(ops, ids, links), RowOf(ops, ids, links[n]);
      assert links == before + [links[n]];
      forall k | 0 <= k < |init| ensures HasAsker(ops, ids, links, init[k]) {
        var m :| FirstAsks(ops, ids, before, m, init[k]);
        assert FirstAsks(ops, ids, links, m, init[k]);
      }
      if row.Some? {
        HasTripleSnoc(init, row.value);
        if !Repeats(init, row.value) {
          assert FirstAsks(ops, ids, links, n, row.value);
        }
      }
      forall m | 0 <= m < |links| && RowOf(ops, ids, links[m]).Some?
        ensures Repeats(rows, RowOf(ops, ids, links[m]).value)
      {
        if m < n {
          assert before[m] == links[m];
        }
      }
    }
  }

  /** Relation `n` asks for `row`, and no earlier relation asks for its triple. */
  ghost predicate FirstAsks(ops: Ops, ids: map<string, nat>, links: seq<Link>, n: int, row: EdgeRow) {
    && 0 <= n < |links| && RowOf(ops, ids, links[n]) == Some(row)
    && (forall m :: 0 <= m < n && RowOf(ops, ids, links[m]).Some? ==>
          var other := RowOf(ops, ids, links[m]).value;
          !(other.source == row.source && other.relation == row.relation && other.target == row.target))
  }

  ghost predicate HasAsker(ops: Ops, ids: map<string, nat>, links: seq<Link>, row: EdgeRow) {
    exists n :: FirstAsks(ops, ids, links, n, row)
  }

  /** The joined keys on record are exactly the keys of the rows. */
  ghost predicate SeenAgrees(seen: set<string>, rows: seq<EdgeRow>) {
    forall s, r, t :: EdgeKey(s, r, t) in seen <==> HasTriple(rows, s, r, t)
  }

  lemma SeenSnoc(seen: set<string>, rows: seq<EdgeRow>, row: EdgeRow)
    requires SeenAgrees(seen, rows)
    ensures SeenAgrees(seen + {EdgeKey(row.source, row.relation, row.target)}, rows + [row])
  {
    HasTripleSnoc(rows, row);
    forall s, r, t
      ensures EdgeKey(s, r, t) in seen + {EdgeKey(row.source, row.relation, row.target)}
              <==> HasTriple(rows + [row], s, r, t)
    {
      EdgeKeyInjective(s, r, t, row.source, row.relation, row.target);
    }
  }

  method CreateEdgesFromFacts(ops: Ops, ids: map<string, nat>, ingested: seq<Ingested>) returns (rows: seq<EdgeRow>)
    ensures rows == EdgeRows(ops, ids, LinksOf(ingested))
  {
    rows := [];
    var seen: set<string> := {};
    for i := 0 to |ingested|
      invariant rows == EdgeRows(ops, ids, LinksOf(ingested[..i]))
      invariant SeenAgrees(seen, rows)
    {
      assert ingested[..i + 1][..i] == ingested[..i];
      var f := ingested[i];
      rows, seen := CreateEdgesOfFact(ops, ids, f.memoryId, f.fact, LinksOf(ingested[..i]), rows, seen);
    }
    assert ingested[..|ingested|] == ingested;
  }

  method CreateEdgesOfFact(ops: Ops, ids: map<string, nat>, memoryId: int, fact: Fact, ghost before: seq<Link>,
                           rows0: seq<EdgeRow>, seen0: set<string>) returns (rows: seq<EdgeRow>, seen: set<string>)
    requires rows0 == EdgeRows(ops, ids, before) && SeenAgrees(seen0, rows0)
    ensures rows == EdgeRows(ops, ids, before + LinksOfFact(memoryId, fact)) && SeenAgrees(seen, rows)
  {
    rows, seen := rows0, seen0;
    ghost var links := LinksOfFact(memoryId, fact);
    assert before + links[..0] == before;
    for k := 0 to |fact.relations|
      invariant rows == EdgeRows(ops, ids, before + links[..k])
      invariant SeenAgrees(seen, rows)
    {
      EdgeRowsNext(ops, ids, before, links, k);
      var row := RowOf(ops, ids, Link(memoryId, fact.relations[k], fact.eventTime));
      if row.Some? {
        rows, seen := AddEdge(rows, seen, row.value);
      }
    }
    assert links[..|links|] == links;
  }

  lemma EdgeRowsNext(ops: Ops, ids: map<string, nat>, before: seq<Link>, links: seq<Link>, k: nat)
    requires k < |links|
    ensures var rows, row := EdgeRows(ops, ids, before + links[..k]), RowOf(ops, ids, links[k]);
            EdgeRows(ops, ids, before + links[..k + 1])
            == if row.None? || Repeats(rows, row.value) then rows else rows + [row.value]
  {
    var all := before + links[..k + 1];
    assert all[..|all| - 1] == before + links[..k] && all[|all| - 1] == links[k];
  }

  method AddEdge(rows0: seq<EdgeRow>, seen0: set<string>, row: EdgeRow) returns (rows: seq<EdgeRow>, seen: set<string>)
    requires SeenAgrees(seen0, rows0)
    ensures rows == (if Repeats(rows0, row) then rows0 else rows0 + [row]) && SeenAgrees(seen, rows)
  {
    rows, seen := rows0, seen0;
    var key := EdgeKey(row.source, row.relation, row.target);
    if key !in seen {
      SeenSnoc(seen, rows, row);
      seen, rows := seen + {key}, rows + [row];
    }
  }

  /* ---- every relation reaches the graph ---- */

  function FactsOf(ingested: seq<Ingested>): seq<Fact> {
    seq(|ingested|, i requires 0 <= i < |ingested| => ingested[i].fact)
  }

  /** What normalisation gives: endpoints are entities of their fact, or have more than five words. */
  ghost predicate EndpointsListed(ops: Ops, f: Fact) {
    forall k :: 0 <= k < |f.relations| ==>
      KnownOrLong(ops, f.entities, f.relations[k].subject) && KnownOrLong(ops, f.entities, f.relations[k].target)
  }

  lemma NormalizedListsEndpoints(ops: Ops, f: Fact, graph: Option<Graph>, fallback: Option<int>)
    ensures EndpointsListed(ops, WithGraph(ops, f, graph, fallback))
  {
    var g := WithGraph(ops, f, graph, fallback);
    forall k | 0 <= k < |g.relations|
      ensures KnownOrLong(ops, g.entities, g.relations[k].subject)
      ensures KnownOrLong(ops, g.entities, g.relations[k].target)
    {
      EndpointsAreEntities(ops, f, graph, fallback, k);
    }
  }

  lemma {:induction false} EntityIsCollected(ops: Ops, facts: seq<Fact>, i: nat, name: string)
    requires i < |facts| && Knows(ops, facts[i].entities, name)
    ensures Named(ops, AllEntities(facts), Casefold(ops, name))
    decreases |facts|
  {
    var n := |facts| - 1;
    var before, last := AllEntities(facts[..n]), facts[n].entities;
    if i < n {
      EntityIsCollected(ops, facts[..n], i, name);
      var k :| 0 <= k < |before| && Casefold(ops, before[k].name) == Casefold(ops, name);
      assert (before + last)[k] == before[k];
    } else {
      var k :| 0 <= k < |last| && ops.lower(last[k].name) == ops.lower(name);
      assert (before + last)[|before| + k] == last[k];
    }
  }

  lemma {:induction false} LinkOf(ingested: seq<Ingested>, i: nat, k: nat) returns (n: nat)
    requires i < |ingested| && k < |ingested[i].fact.relations|
    ensures n < |LinksOf(ingested)|
    ensures LinksOf(ingested)[n] == LinkAt(ingested, i, k)
    decreases |ingested|
  {
    var last := |ingested| - 1;
    if i < last {
      n := LinkOf(ingested[..last], i, k);
    } else {
      n := |LinksOf(ingested[..last])| + k;
    }
  }

  /** Every link is a relation of some fact. */
  lemma {:induction false} LinkFrom(ingested: seq<Ingested>, n: nat) returns (i: nat, k: nat)
    requires n < |LinksOf(ingested)|
    ensures i < |ingested| && k < |ingested[i].fact.relations|
    ensures LinksOf(ingested)[n] == LinkAt(ingested, i, k)
    decreases |ingested|
  {
    var last := |ingested| - 1;
    var before := LinksOf(ingested[..last]);
    if n < |before| {
      i, k := LinkFrom(ingested[..last], n);
    } else {
      i, k := last, n - |before|;
    }
  }

  function LinkAt(ingested: seq<Ingested>, i: nat, k: nat): Link
    requires i < |ingested| && k < |ingested[i].fact.relations|
  {
    Link(ingested[i].memoryId, ingested[i].fact.relations[k], ingested[i].fact.eventTime)
  }

  /** Some relation of some fact asks for the row. */
  ghost predicate Wanted(ops: Ops, ids: map<string, nat>, ingested: seq<Ingested>, row: EdgeRow) {
    exists i, k :: 0 <= i < |ingested| && 0 <= k < |ingested[i].fact.relations|
      && Asks(ops, ids, LinkAt(ingested, i, k), row)
  }

  /** No edge is invented. */
  lemma EdgesAreWanted(ops: Ops, ids: map<string, nat>, ingested: seq<Ingested>)
    ensures forall row :: row in EdgeRows(ops, ids, LinksOf(ingested)) ==> Wanted(ops, ids, ingested, row)
  {
    var links := LinksOf(ingested);
    EdgesAreExact(ops, ids, links);
    hide EdgeRows, LinksOf, Asks, AsksTriple;
    forall row | row in EdgeRows(ops, ids, links) ensures Wanted(ops, ids, ingested, row) {
      var n :| FirstAsker(ops, ids, links, n, row);
      var i, k := LinkFrom(ingested, n);
      assert Asks(ops, ids, LinkAt(ingested, i, k), row);
    }
  }

  /** The map covers exactly the folded names of the facts' entities. */
  ghost predicate Covers(ops: Ops, ids: map<string, nat>, facts: seq<Fact>) {
    forall key :: key in ids <==> Named(ops, AllEntities(facts), key)
  }

  /** The relation has an edge with its triple, or one of the two excuses. */
  ghost predicate Reaches(ops: Ops, ids: map<string, nat>, ingested: seq<Ingested>, rows: seq<EdgeRow>, rel: Relation) {
    var entities := AllEntities(FactsOf(ingested));
    var s, t := Casefold(ops, rel.subject), Casefold(ops, rel.target);
    && (s !in ids ==> ops.words(rel.subject) > 5 && !Named(ops, entities, s))
    && (t !in ids ==> ops.words(rel.target) > 5 && !Named(ops, entities, t))
    && (s in ids && t in ids && ids[s] != ids[t] ==> HasTriple(rows, ids[s], rel.relation, ids[t]))
  }

  /**
   * Completeness: every relation of every fact has an edge with its triple, unless its
   * endpoints share an id, or an endpoint has more than five words and is no fact's entity.
   */
  lemma RelationsReachGraph(ops: Ops, ids: map<string, nat>, ingested: seq<Ingested>, i: nat, k: nat)
    requires Covers(ops, ids, FactsOf(ingested)) && i < |ingested| && EndpointsListed(ops, ingested[i].fact)
    requires k < |ingested[i].fact.relations|
    ensures Reaches(ops, ids, ingested, EdgeRows(ops, ids, LinksOf(ingested)), ingested[i].fact.relations[k])
  {
    var f := ingested[i].fact;
    var rel := f.relations[k];
    if Knows(ops, f.entities, rel.subject) {
      EntityIsCollected(ops, FactsOf(ingested), i, rel.subject);
    }
    if Knows(ops, f.entities, rel.target) {
      EntityIsCollected(ops, FactsOf(ingested), i, rel.target);
    }
    var n := LinkOf(ingested, i, k);
    RowsAreExact(ops, ids, LinksOf(ingested));
    assert RowOf(ops, ids, LinksOf(ingested)[n]).Some? ==>
        Repeats(EdgeRows(ops, ids, LinksOf(ingested)), RowOf(ops, ids, LinksOf(ingested)[n]).value);
  }

  lemma NamesAreMapped(ops: Ops, score: (string, string) -> int, pool: seq<Candidate>, rows: map<nat, string>,
                       entities: seq<Entity>, resolved: seq<Resolved>, ids: map<string, nat>)
    requires FullyAssigned(ops, score, pool, rows, entities, resolved) && DistinctFolds(ops, entities)
    requires forall key :: key in ids ==>
               exists i :: 0 <= i < |resolved| && Casefold(ops, resolved[i].extracted.name) == key
    requires forall i :: 0 <= i < |resolved| ==> Casefold(ops, resolved[i].extracted.name) in ids
    requires forall i :: LastOfName(ops, resolved, i) ==>
               ids[Casefold(ops, resolved[i].extracted.name)] == resolved[i].entityId
    ensures forall key :: key in ids <==> Named(ops, entities, key)
    ensures forall key :: key in ids ==> ids[key] in rows
  {
  }

  /** Every fact that leaves normalisation lists its endpoints, the temporal fallback included. */
  lemma {:induction false} ChunkListsEndpoints(
      ops: Ops, raws: seq<RawMemory>, count: nat, graphs: seq<Graph>, seen: set<string>, infer: string -> Option<int>)
    ensures forall f :: f in FilledFacts(infer, Fused(ops, raws, count, graphs, seen)) ==> EndpointsListed(ops, f)
    decreases |raws|
  {
    hide EndpointsListed, WithGraph, Judge, FirstGraph, KeysAfter;
    var facts := Fused(ops, raws, count, graphs, seen);
    if raws != [] {
      var i := |raws| - 1;
      var init := Fused(ops, raws[..i], count, graphs, seen);
      ChunkListsEndpoints(ops, raws[..i], count, graphs, seen, infer);
      forall k | 0 <= k < |facts| ensures EndpointsListed(ops, Filled(infer, facts[k])) {
        if k < |init| {
          assert FilledFacts(infer, init)[k] == Filled(infer, facts[k]);
        } else {
          var f, graph := Judge(ops, raws[i]).fact, FirstGraph(graphs, i, count);
          NormalizedListsEndpoints(ops, f, graph, f.eventTime);
          FillingKeepsEndpoints(ops, infer, facts[k]);
        }
      }
    }
  }

  lemma FillingKeepsEndpoints(ops: Ops, infer: string -> Option<int>, f: Fact)
    requires EndpointsListed(ops, f)
    ensures EndpointsListed(ops, Filled(infer, f))
  {
  }

  /** The whole stage; `None` is the resolution error. */
  method LinkFacts(ops: Ops, table: EntityTable, score: (string, string) -> int, ingested: seq<Ingested>,
                   near: seq<nat>, others: seq<string>)
    returns (r: Option<seq<EdgeRow>>, ids: map<string, nat>)
    requires table.Valid()
    modifies table`rows, table`nextId
    ensures table.Valid()
    ensures r.Some? ==> Covers(ops, ids, FactsOf(ingested)) && r.value == EdgeRows(ops, ids, LinksOf(ingested))
    ensures r.Some? ==> forall key :: key in ids ==> ids[key] in table.rows
    ensures r.Some? ==> forall row :: row in r.value ==> Wanted(ops, ids, ingested, row)
    ensures r.Some? && (forall i :: 0 <= i < |ingested| ==> EndpointsListed(ops, ingested[i].fact)) ==>
              forall i, k :: 0 <= i < |ingested| && 0 <= k < |ingested[i].fact.relations| ==>
                Reaches(ops, ids, ingested, r.value, ingested[i].fact.relations[k])
  {
    ids := map[];
    var entities := CollectUniqueEntities(ops, FactsOf(ingested));
    UniqueKeepsNames(ops, AllEntities(FactsOf(ingested)));
    ghost var pool;
    var resolved: Option<seq<Resolved>>;
    resolved, pool := ResolveEntities(ops, table, score, entities, near, others);
    if resolved.None? {
      return None, ids;
    }
    ids := BuildNameToIdMap(ops, resolved.value);
    NamesAreMapped(ops, score, pool, table.rows, entities, resolved.value, ids);
    var rows := CreateEdgesFromFacts(ops, ids, ingested);
    EdgesAreWanted(ops, ids, ingested);
    if forall i :: 0 <= i < |ingested| ==> EndpointsListed(ops, ingested[i].fact) {
      forall i, k | 0 <= i < |ingested| && 0 <= k < |ingested[i].fact.relations|
        ensures Reaches(ops, ids, ingested, rows, ingested[i].fact.relations[k])
      {
        RelationsReachGraph(ops, ids, ingested, i, k);
      }
    }
    r := Some(rows);
  }
}

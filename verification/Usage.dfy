/**
 * Usage metering: daily counters per tenant and day, and per-source flags saying a
 * completion or a failure has been counted already.
 */
module Usage {
  import opened SourceRows

  /** One counter row per tenant, user, space and day. */
  datatype Key = Key(org: int, user: int, space: int, day: int)

  datatype Counters = Counters(tokensIngested: nat, sourcesIngested: nat, sourcesFailed: nat, searchQueries: nat)

  /**
   * `completions`, `failures` and `direct` are the history the counters must agree with: on
   * which row each flagged source was counted, and the token-only calls per row.
   */
  datatype Ledger = Ledger(
    sources: map<int, SourceRow>,
    daily: map<Key, Counters>,
    byType: map<Key, map<string, nat>>,
    completions: map<int, Key>,
    failures: map<int, Key>,
    direct: map<Key, nat>)

  datatype Input = Input(tokens: int, completedIds: seq<int>, failedIds: seq<int>)

  function Row(l: Ledger, k: Key): Counters {
    if k in l.daily then l.daily[k] else Counters(0, 0, 0, 0)
  }

  function TypeCount(l: Ledger, k: Key, t: string): nat {
    if k in l.byType && t in l.byType[k] then l.byType[k][t] else 0
  }

  function Direct(l: Ledger, k: Key): nat {
    if k in l.direct then l.direct[k] else 0
  }

  function Max0(n: int): nat {
    if n < 0 then 0 else n
  }

  predicate Selected(l: Ledger, k: Key, id: int) {
    id in l.sources && l.sources[id].org == k.org && l.sources[id].space == k.space
  }

  /** The requested completions that still count: in scope, completed, not yet recorded. */
  function Fresh(l: Ledger, k: Key, ids: seq<int>): set<int> {
    set id | id in ids && Selected(l, k, id) && l.sources[id].status.Done? && !l.sources[id].completionRecorded
  }

  function FreshFailures(l: Ledger, k: Key, ids: seq<int>): set<int> {
    set id | id in ids && Selected(l, k, id) && l.sources[id].status.Broken? && !l.sources[id].failureRecorded
  }

  ghost function Tokens(sources: map<int, SourceRow>, ids: set<int>): nat
    requires ids <= sources.Keys
  {
    if exists id :: id in ids
    then
      var id :| id in ids;
      sources[id].tokenCount + Tokens(sources, ids - {id})
    else 0
  }

  function OfType(sources: map<int, SourceRow>, ids: set<int>, t: string): set<int> {
    set id | id in ids && id in sources && sources[id].contentType == t
  }

  ghost function Accounted(l: Ledger, k: Key, input: Input): nat {
    var counted := Fresh(l, k, input.completedIds);
    if |counted| > 0 then Tokens(l.sources, counted)
    else if input.completedIds == [] && input.failedIds == [] then Max0(input.tokens) else 0
  }

  function Flag(sources: map<int, SourceRow>, done: set<int>, broken: set<int>): map<int, SourceRow> {
    map id | id in sources ::
      var s := sources[id];
      s.(completionRecorded := s.completionRecorded || id in done, failureRecorded := s.failureRecorded || id in broken)
  }

  function Types(sources: map<int, SourceRow>, ids: set<int>): set<string> {
    set id | id in ids && id in sources :: sources[id].contentType
  }

  function Attribute(m: map<int, Key>, ids: set<int>, k: Key): map<int, Key> {
    m + map id | id in ids :: k
  }

  /** The ids a history attributes to row `k`. */
  function On(m: map<int, Key>, k: Key): set<int> {
    set id | id in m && m[id] == k
  }

  /** Row `k`'s per-type counts after counting `done`, one upsert per type. */
  function AddTypes(l: Ledger, k: Key, done: set<int>): map<string, nat> {
    (if k in l.byType then l.byType[k] else map[]) +
    map t | t in Types(l.sources, done) :: TypeCount(l, k, t) + |OfType(l.sources, done, t)|
  }

  /** Counts `done` and `broken` on row `k` and flags them, with `tokens`, of which `direct` came without sources. */
  function Post(l: Ledger, k: Key, done: set<int>, broken: set<int>, tokens: nat, direct: nat): Ledger
    requires done <= l.sources.Keys
  {
    var row := Row(l, k);
    Ledger(
      Flag(l.sources, done, broken),
      l.daily[k := row.(tokensIngested := row.tokensIngested + tokens,
                        sourcesIngested := row.sourcesIngested + |done|,
                        sourcesFailed := row.sourcesFailed + |broken|)],
      l.byType[k := AddTypes(l, k, done)],
      Attribute(l.completions, done, k),
      Attribute(l.failures, broken, k),
      if direct == 0 then l.direct else l.direct[k := Direct(l, k) + direct])
  }

  /** The committed effect of one roll-up transaction. */
  ghost function Record(l: Ledger, k: Key, input: Input): Ledger {
    var done := Fresh(l, k, input.completedIds);
    var broken := FreshFailures(l, k, input.failedIds);
    var tokens := Accounted(l, k, input);
    if tokens == 0 && |done| == 0 && |broken| == 0 then l
    else Post(l, k, done, broken, tokens, if |done| > 0 then 0 else tokens)
  }

  /** The effect of recording `queries` searches. */
  function Searched(l: Ledger, k: Key, queries: int): Ledger {
    if queries <= 0 then l
    else l.(daily := l.daily[k := Row(l, k).(searchQueries := Row(l, k).searchQueries + queries)])
  }

  /** The flags are exactly the sources counted so far. */
  ghost predicate FlagsAgree(l: Ledger) {
    && l.completions.Keys <= l.sources.Keys && l.failures.Keys <= l.sources.Keys
    && (forall id :: id in l.sources ==>
          && (l.sources[id].completionRecorded <==> id in l.completions)
          && (l.sources[id].failureRecorded <==> id in l.failures))
  }

  /** Counter row `k` equals what was counted on it. */
  ghost predicate CountsAgree(l: Ledger, k: Key) {
    && On(l.completions, k) <= l.sources.Keys
    && Row(l, k).tokensIngested == Tokens(l.sources, On(l.completions, k)) + Direct(l, k)
    && Row(l, k).sourcesIngested == |On(l.completions, k)|
    && Row(l, k).sourcesFailed == |On(l.failures, k)|
  }

  /** The per-type counts of row `k` split its sources exactly. */
  ghost predicate TypesAgree(l: Ledger, k: Key) {
    forall t :: TypeCount(l, k, t) == |OfType(l.sources, On(l.completions, k), t)|
  }

  /** Conservation: nothing is counted twice, nothing counted is missing from its row. */
  ghost predicate Conserved(l: Ledger) {
    FlagsAgree(l) && forall k :: CountsAgree(l, k) && TypesAgree(l, k)
  }

  lemma {:induction false} TokensPick(sources: map<int, SourceRow>, ids: set<int>, id: int)
    requires ids <= sources.Keys && id in ids
    ensures Tokens(sources, ids) == sources[id].tokenCount + Tokens(sources, ids - {id})
  {
    var o :| o in ids && Tokens(sources, ids) == sources[o].tokenCount + Tokens(sources, ids - {o});
    if o != id {
      TokensPick(sources, ids - {o}, id);
      TokensPick(sources, ids - {id}, o);
      assert ids - {o} - {id} == ids - {id} - {o};
    }
  }

  lemma {:induction false} TokensDisjoint(sources: map<int, SourceRow>, a: set<int>, b: set<int>)
    requires a <= sources.Keys && b <= sources.Keys && a !! b
    ensures Tokens(sources, a + b) == Tokens(sources, a) + Tokens(sources, b)
  {
    if id :| id in b {
      TokensPick(sources, b, id);
      TokensPick(sources, a + b, id);
      assert a + b - {id} == a + (b - {id});
      TokensDisjoint(sources, a, b - {id});
    } else {
      assert forall o :: o !in b;
      assert a + b == a && b == {};
    }
  }

  lemma {:induction false} TokensSame(s0: map<int, SourceRow>, s1: map<int, SourceRow>, ids: set<int>)
    requires ids <= s0.Keys && ids <= s1.Keys
    requires forall id :: id in ids ==> s1[id].tokenCount == s0[id].tokenCount
    ensures Tokens(s1, ids) == Tokens(s0, ids)
  {
    if id :| id in ids {
      TokensPick(s0, ids, id);
      TokensPick(s1, ids, id);
      TokensSame(s0, s1, ids - {id});
    }
  }

  /** What `Post` counts is countable: known sources, none of them counted before. */
  ghost predicate Countable(l: Ledger, done: set<int>, broken: set<int>, tokens: nat, direct: nat) {
    && FlagsAgree(l)
    && done <= l.sources.Keys && broken <= l.sources.Keys
    && done !! l.completions.Keys && broken !! l.failures.Keys
    && tokens == Tokens(l.sources, done) + direct
  }

  lemma PostFlags(l: Ledger, k: Key, done: set<int>, broken: set<int>, tokens: nat, direct: nat)
    requires Countable(l, done, broken, tokens, direct)
    ensures FlagsAgree(Post(l, k, done, broken, tokens, direct))
  {
  }

  lemma AttributeOn(m: map<int, Key>, ids: set<int>, k: Key)
    ensures On(Attribute(m, ids, k), k) == On(m, k) + ids
  {
  }

  lemma AttributeOff(m: map<int, Key>, ids: set<int>, k: Key, other: Key)
    requires other != k && ids !! m.Keys
    ensures On(Attribute(m, ids, k), other) == On(m, other)
  {
  }

  lemma FlagKeeps(sources: map<int, SourceRow>, done: set<int>, broken: set<int>)
    ensures var flagged := Flag(sources, done, broken);
            && flagged.Keys == sources.Keys
            && (forall id :: id in sources ==>
                  && flagged[id].tokenCount == sources[id].tokenCount
                  && flagged[id].contentType == sources[id].contentType)
  {
  }

  lemma TokensAttributed(s0: map<int, SourceRow>, s1: map<int, SourceRow>, m: map<int, Key>, done: set<int>, k: Key)
    requires s1.Keys == s0.Keys && forall id :: id in s0 ==> s1[id].tokenCount == s0[id].tokenCount
    requires On(m, k) <= s0.Keys && done <= s0.Keys && done !! m.Keys
    ensures var after := On(Attribute(m, done, k), k);
            && after <= s1.Keys && |after| == |On(m, k)| + |done|
            && Tokens(s1, after) == Tokens(s0, On(m, k)) + Tokens(s0, done)
  {
    AttributeOn(m, done, k);
    TokensSame(s0, s1, On(m, k) + done);
    TokensDisjoint(s0, On(m, k), done);
  }

  lemma CountAttributed(m: map<int, Key>, ids: set<int>, k: Key)
    requires ids !! m.Keys
    ensures |On(Attribute(m, ids, k), k)| == |On(m, k)| + |ids|
  {
    AttributeOn(m, ids, k);
    assert On(m, k) !! ids;
  }

  /** What one roll-up adds, column by column. */
  lemma PostFields(l: Ledger, k: Key, done: set<int>, broken: set<int>, tokens: nat, direct: nat, other: Key)
    requires done <= l.sources.Keys
    ensures var l' := Post(l, k, done, broken, tokens, direct);
            var share := if other == k then 1 else 0;
            && Row(l', other).tokensIngested == Row(l, other).tokensIngested + share * tokens
            && Row(l', other).sourcesIngested == Row(l, other).sourcesIngested + share * |done|
            && Row(l', other).sourcesFailed == Row(l, other).sourcesFailed + share * |broken|
            && Row(l', other).searchQueries == Row(l, other).searchQueries
            && Direct(l', other) == Direct(l, other) + share * direct
  {
  }

  lemma PostKeepsCounts(l: Ledger, k: Key, done: set<int>, broken: set<int>, tokens: nat, direct: nat, other: Key)
    requires done <= l.sources.Keys && done !! l.completions.Keys && broken !! l.failures.Keys
    requires tokens == Tokens(l.sources, done) + direct && CountsAgree(l, other)
    ensures CountsAgree(Post(l, k, done, broken, tokens, direct), other)
  {
    hide Flag, Attribute, AddTypes, Row, Direct, Tokens, On;
    FlagKeeps(l.sources, done, broken);
    PostFields(l, k, done, broken, tokens, direct, other);
    var flagged := Flag(l.sources, done, broken);
    if other == k {
      TokensAttributed(l.sources, flagged, l.completions, done, k);
      CountAttributed(l.failures, broken, k);
    } else {
      AttributeOff(l.completions, done, k, other);
      AttributeOff(l.failures, broken, k, other);
      TokensSame(l.sources, flagged, On(l.completions, other));
    }
  }

  lemma PostKeepsTypes(l: Ledger, k: Key, done: set<int>, broken: set<int>, tokens: nat, direct: nat, other: Key)
    requires done <= l.sources.Keys && done !! l.completions.Keys && TypesAgree(l, other)
    ensures TypesAgree(Post(l, k, done, broken, tokens, direct), other)
  {
    var l' := Post(l, k, done, broken, tokens, direct);
    forall t ensures TypeCount(l', other, t) == |OfType(l'.sources, On(l'.completions, other), t)| {
      PostKeepsType(l, k, done, broken, tokens, direct, other, t);
    }
  }

  lemma PostKeepsType(
    l: Ledger, k: Key, done: set<int>, broken: set<int>, tokens: nat, direct: nat, other: Key, t: string)
    requires done <= l.sources.Keys && done !! l.completions.Keys
    requires TypeCount(l, other, t) == |OfType(l.sources, On(l.completions, other), t)|
    ensures var l' := Post(l, k, done, broken, tokens, direct);
            TypeCount(l', other, t) == |OfType(l'.sources, On(l'.completions, other), t)|
  {
    FlagKeeps(l.sources, done, broken);
    var flagged := Flag(l.sources, done, broken);
    if other == k {
      AttributeOn(l.completions, done, k);
      PostTypeCount(l, k, done, broken, tokens, direct, t);
      OfTypeSplits(l.sources, flagged, On(l.completions, k), done, t);
    } else {
      AttributeOff(l.completions, done, k, other);
      OfTypeSame(l.sources, flagged, On(l.completions, other), t);
    }
  }

  lemma OfTypeSame(s0: map<int, SourceRow>, s1: map<int, SourceRow>, a: set<int>, t: string)
    requires s0.Keys == s1.Keys && forall id :: id in s0 ==> s1[id].contentType == s0[id].contentType
    ensures OfType(s1, a, t) == OfType(s0, a, t)
  {
    forall id ensures id in OfType(s1, a, t) <==> id in OfType(s0, a, t) {
      assert id in s0 <==> id in s1;
    }
  }

  lemma OfTypeSplits(s0: map<int, SourceRow>, s1: map<int, SourceRow>, a: set<int>, b: set<int>, t: string)
    requires s0.Keys == s1.Keys && a !! b
    requires forall id :: id in s0 ==> s1[id].contentType == s0[id].contentType
    ensures |OfType(s1, a + b, t)| == |OfType(s0, a, t)| + |OfType(s0, b, t)|
  {
    OfTypeSame(s0, s1, a + b, t);
    assert OfType(s0, a + b, t) == OfType(s0, a, t) + OfType(s0, b, t);
  }

  lemma PostTypeCount(l: Ledger, k: Key, done: set<int>, broken: set<int>, tokens: nat, direct: nat, t: string)
    requires done <= l.sources.Keys
    ensures TypeCount(Post(l, k, done, broken, tokens, direct), k, t)
            == TypeCount(l, k, t) + |OfType(l.sources, done, t)|
  {
    if t !in Types(l.sources, done) {
      forall id ensures id !in OfType(l.sources, done, t) {
        assert id in done && id in l.sources ==> l.sources[id].contentType in Types(l.sources, done);
      }
      assert OfType(l.sources, done, t) == {};
    }
  }

  /** One roll-up keeps the conservation law on every counter row. */
  lemma RecordConserves(l: Ledger, k: Key, input: Input)
    requires Conserved(l)
    ensures Conserved(Record(l, k, input))
  {
    var done := Fresh(l, k, input.completedIds);
    var broken := FreshFailures(l, k, input.failedIds);
    var tokens := Accounted(l, k, input);
    var direct := if |done| > 0 then 0 else tokens;
    if |done| == 0 {
      assert done == {};
    }
    assert Countable(l, done, broken, tokens, direct);
    var l' := Post(l, k, done, broken, tokens, direct);
    PostFlags(l, k, done, broken, tokens, direct);
    forall other ensures CountsAgree(l', other) && TypesAgree(l', other) {
      PostKeepsCounts(l, k, done, broken, tokens, direct, other);
      PostKeepsTypes(l, k, done, broken, tokens, direct, other);
    }
  }

  lemma FlagIsFlagsOnly(sources: map<int, SourceRow>, done: set<int>, broken: set<int>)
    ensures FlagsOnly(sources, Flag(sources, done, broken))
  {
  }

  lemma FlagsOnlyItself(sources: map<int, SourceRow>)
    ensures FlagsOnly(sources, sources)
  {
  }

  predicate OfTenant(l: Ledger, k: Key, id: int) {
    id in l.sources && (l.sources[id].org, l.sources[id].space) == (k.org, k.space)
  }

  lemma AttributeAdds(m: map<int, Key>, ids: set<int>, k: Key)
    requires ids !! m.Keys
    ensures Attribute(m, ids, k).Keys == m.Keys + ids
    ensures forall id :: id in ids ==> Attribute(m, ids, k)[id] == k
    ensures forall id :: id in m ==> Attribute(m, ids, k)[id] == m[id]
  {
  }

  /**
   * One roll-up counts exactly the requested completions and failures of its tenant that are
   * not counted yet, on its own row, and changes nothing but flags.
   */
  lemma RecordCounts(l: Ledger, k: Key, input: Input)
    requires FlagsAgree(l)
    ensures var l' := Record(l, k, input);
            && FlagsOnly(l.sources, l'.sources)
            && (forall id :: id in l.completions ==> id in l'.completions && l'.completions[id] == l.completions[id])
            && (forall id :: id in l'.completions <==>
                  || id in l.completions
                  || (id in input.completedIds && OfTenant(l, k, id) && l.sources[id].status == Done))
            && (forall id :: id in l'.completions && id !in l.completions ==> l'.completions[id] == k)
            && (forall id :: id in l.failures ==> id in l'.failures && l'.failures[id] == l.failures[id])
            && (forall id :: id in l'.failures <==>
                  || id in l.failures
                  || (id in input.failedIds && OfTenant(l, k, id) && l.sources[id].status == Broken))
            && (forall id :: id in l'.failures && id !in l.failures ==> l'.failures[id] == k)
  {
    hide Record, Attribute, FlagsOnly;
    RecordMaps(l, k, input);
    AttributeAdds(l.completions, Fresh(l, k, input.completedIds), k);
    AttributeAdds(l.failures, FreshFailures(l, k, input.failedIds), k);
  }

  lemma RecordMaps(l: Ledger, k: Key, input: Input)
    ensures var l' := Record(l, k, input);
            && FlagsOnly(l.sources, l'.sources)
            && l'.completions == Attribute(l.completions, Fresh(l, k, input.completedIds), k)
            && l'.failures == Attribute(l.failures, FreshFailures(l, k, input.failedIds), k)
  {
    hide Accounted, Flag, AddTypes, Row, Direct, FlagsOnly, Fresh, FreshFailures;
    var done, broken := Fresh(l, k, input.completedIds), FreshFailures(l, k, input.failedIds);
    assert |done| == 0 ==> done == {};
    assert |broken| == 0 ==> broken == {};
    assert Attribute(l.completions, {}, k) == l.completions && Attribute(l.failures, {}, k) == l.failures;
    FlagIsFlagsOnly(l.sources, done, broken);
    FlagsOnlyItself(l.sources);
  }

  lemma ConservedFlags(l: Ledger)
    requires Conserved(l)
    ensures FlagsAgree(l)
  {
  }

  /** Status writes are invisible to the law. */
  lemma StatusOnlyConserves(l: Ledger, s1: map<int, SourceRow>)
    requires Conserved(l) && StatusOnly(l.sources, s1)
    ensures Conserved(l.(sources := s1))
  {
    var l' := l.(sources := s1);
    forall k ensures CountsAgree(l', k) && TypesAgree(l', k) {
      assert CountsAgree(l, k) && TypesAgree(l, k);
      TokensSame(l.sources, s1, On(l.completions, k));
      forall t ensures TypeCount(l', k, t) == |OfType(s1, On(l.completions, k), t)| {
        assert TypeCount(l, k, t) == |OfType(l.sources, On(l.completions, k), t)|;
        OfTypeSame(l.sources, s1, On(l.completions, k), t);
      }
    }
  }

  /* ---- histories ---- */

  datatype Event =
    | RollUp(key: Key, input: Input)
    | Search(key: Key, queries: int)
    | StatusChange(id: int, status: ExtractionStatus)

  ghost function After(l: Ledger, e: Event): Ledger {
    match e
    case RollUp(k, input) => Record(l, k, input)
    case Search(k, queries) => Searched(l, k, queries)
    case StatusChange(id, status) =>
      if id in l.sources then l.(sources := l.sources[id := l.sources[id].(status := status)]) else l
  }

  ghost function AfterAll(l: Ledger, es: seq<Event>): Ledger
    decreases |es|
  {
    if es == [] then l else AfterAll(After(l, es[0]), es[1..])
  }

  lemma SearchConserves(l: Ledger, k: Key, queries: int)
    requires Conserved(l)
    ensures Conserved(Searched(l, k, queries))
  {
    var l' := Searched(l, k, queries);
    assert FlagsAgree(l') by {
      assert l'.sources == l.sources && l'.completions == l.completions && l'.failures == l.failures;
    }
    forall other ensures CountsAgree(l', other) && TypesAgree(l', other) {
      assert CountsAgree(l, other) && TypesAgree(l, other);
      SearchKeepsRow(l, k, queries, other);
    }
  }

  lemma SearchKeepsRow(l: Ledger, k: Key, queries: int, other: Key)
    requires CountsAgree(l, other) && TypesAgree(l, other)
    ensures CountsAgree(Searched(l, k, queries), other) && TypesAgree(Searched(l, k, queries), other)
  {
    hide Tokens, OfType, On, Direct;
    var l' := Searched(l, k, queries);
    assert Row(l', other) == Row(l, other).(searchQueries := Row(l', other).searchQueries);
    forall t ensures TypeCount(l', other, t) == |OfType(l'.sources, On(l'.completions, other), t)| {
      assert TypeCount(l', other, t) == TypeCount(l, other, t);
    }
    assert Direct(l', other) == Direct(l, other) by {
      DirectOf(l, l', other);
    }
  }

  lemma DirectOf(l: Ledger, l': Ledger, k: Key)
    requires l'.direct == l.direct
    ensures Direct(l', k) == Direct(l, k)
  {
  }

  lemma EventConserves(l: Ledger, e: Event)
    requires Conserved(l)
    ensures Conserved(After(l, e))
    ensures forall id :: id in l.completions ==>
              id in After(l, e).completions && After(l, e).completions[id] == l.completions[id]
  {
    match e
    case RollUp(k, input) =>
      RecordConserves(l, k, input);
      RecordCounts(l, k, input);
    case Search(k, queries) => SearchConserves(l, k, queries);
    case StatusChange(id, status) =>
      if id in l.sources {
        StatusOnlyConserves(l, l.sources[id := l.sources[id].(status := status)]);
      }
  }

  /**
   * Over every history of roll-ups with overlapping or repeated ids, searches and status
   * changes, the counters stay exactly the sum of what was counted, and a source counted
   * once keeps its row and is never counted again.
   */
  lemma {:induction false} MeteringConserves(l: Ledger, es: seq<Event>)
    requires Conserved(l)
    ensures Conserved(AfterAll(l, es))
    ensures forall id :: id in l.completions ==>
              id in AfterAll(l, es).completions && AfterAll(l, es).completions[id] == l.completions[id]
    decreases |es|
  {
    if es != [] {
      EventConserves(l, es[0]);
      MeteringConserves(After(l, es[0]), es[1..]);
    }
  }

  /** The searches a history records on row `k`; a non-positive number of queries counts as none. */
  function Searches(es: seq<Event>, k: Key): nat
    decreases |es|
  {
    if es == [] then 0
    else
      (match es[0]
       case Search(key, queries) => if key == k && queries > 0 then queries else 0
       case _ => 0)
      + Searches(es[1..], k)
  }

  /** Over every history the search counter of a row grows by exactly the searches recorded on it. */
  lemma {:induction false} SearchesAddUp(l: Ledger, es: seq<Event>, k: Key)
    ensures Row(AfterAll(l, es), k).searchQueries == Row(l, k).searchQueries + Searches(es, k)
    decreases |es|
  {
    if es != [] {
      SearchesStep(l, es[0], k);
      SearchesAddUp(After(l, es[0]), es[1..], k);
      assert [es[0]][1..] == [];
    }
  }

  lemma SearchesStep(l: Ledger, e: Event, k: Key)
    ensures Row(After(l, e), k).searchQueries == Row(l, k).searchQueries + Searches([e], k)
  {
    hide Fresh, FreshFailures, Accounted, Flag, Attribute, AddTypes, Direct;
    assert [e][1..] == [];
  }

  /** The tokens a history adds to row `k` without naming sources; a negative number counts as none. */
  function BareTokens(es: seq<Event>, k: Key): nat
    decreases |es|
  {
    if es == [] then 0
    else
      (match es[0]
       case RollUp(key, input) =>
         if key == k && input.completedIds == [] && input.failedIds == [] && input.tokens > 0 then input.tokens else 0
       case _ => 0)
      + BareTokens(es[1..], k)
  }

  /**
   * Over every history the tokens counted without sources are exactly those of the calls that
   * name none; a call that names any counts the tokens of its sources instead of its own.
   */
  lemma {:induction false} BareTokensAddUp(l: Ledger, es: seq<Event>, k: Key)
    ensures Direct(AfterAll(l, es), k) == Direct(l, k) + BareTokens(es, k)
    decreases |es|
  {
    if es != [] {
      assert [es[0]][1..] == [];
      BareTokensStep(l, es[0], k);
      BareTokensAddUp(After(l, es[0]), es[1..], k);
    }
  }

  lemma BareTokensStep(l: Ledger, e: Event, k: Key)
    ensures Direct(After(l, e), k) == Direct(l, k) + BareTokens([e], k)
  {
    hide Flag, Attribute, AddTypes, Row, Tokens;
    assert [e][1..] == [];
    if e.RollUp? {
      var counted := Fresh(l, e.key, e.input.completedIds);
      assert e.input.completedIds == [] ==> counted == {};
    }
  }

  /** An empty ledger over any source rows with cleared flags satisfies the law. */
  lemma FreshLedgerConserved(sources: map<int, SourceRow>)
    requires forall id :: id in sources ==> !sources[id].completionRecorded && !sources[id].failureRecorded
    ensures Conserved(Ledger(sources, map[], map[], map[], map[], map[]))
    ensures forall k :: Row(Ledger(sources, map[], map[], map[], map[], map[]), k).searchQueries == 0
  {
  }

  ghost function SumOfTypes(l: Ledger, k: Key, types: set<string>): nat {
    if exists t :: t in types
    then
      var t :| t in types;
      TypeCount(l, k, t) + SumOfTypes(l, k, types - {t})
    else 0
  }

  function OfTypes(sources: map<int, SourceRow>, ids: set<int>, types: set<string>): set<int> {
    set id | id in ids && id in sources && sources[id].contentType in types
  }

  lemma OfTypesPick(sources: map<int, SourceRow>, ids: set<int>, types: set<string>, t: string)
    requires t in types
    ensures |OfTypes(sources, ids, types)| == |OfType(sources, ids, t)| + |OfTypes(sources, ids, types - {t})|
  {
    var rest := OfTypes(sources, ids, types - {t});
    assert OfTypes(sources, ids, types) == OfType(sources, ids, t) + rest;
    assert OfType(sources, ids, t) !! rest;
  }

  lemma {:induction false} SumOfTypesIs(l: Ledger, k: Key, ids: set<int>, types: set<string>)
    requires forall t :: TypeCount(l, k, t) == |OfType(l.sources, ids, t)|
    ensures SumOfTypes(l, k, types) == |OfTypes(l.sources, ids, types)|
  {
    if exists t :: t in types {
      var t :| t in types && SumOfTypes(l, k, types) == TypeCount(l, k, t) + SumOfTypes(l, k, types - {t});
      SumOfTypesIs(l, k, ids, types - {t});
      OfTypesPick(l.sources, ids, types, t);
    } else {
      assert OfTypes(l.sources, ids, types) == {};
    }
  }

  /** The content-type counts of a row add up to the sources counted on it. */
  lemma TypeCountsAddUp(l: Ledger, k: Key, types: set<string>)
    requires Conserved(l) && Types(l.sources, On(l.completions, k)) <= types
    ensures SumOfTypes(l, k, types) == Row(l, k).sourcesIngested
  {
    var ids := On(l.completions, k);
    assert CountsAgree(l, k) && TypesAgree(l, k);
    SumOfTypesIs(l, k, ids, types);
    forall id | id in ids ensures id in OfTypes(l.sources, ids, types) {
      assert l.sources[id].contentType in Types(l.sources, ids);
    }
    assert OfTypes(l.sources, ids, types) == ids;
  }

  /* ---- the transaction, step by step ---- */

  ghost predicate Tallied(sources: map<int, SourceRow>, done: set<int>, tokens: nat, types: map<string, nat>) {
    && done <= sources.Keys
    && tokens == Tokens(sources, done)
    && types.Keys == Types(sources, done)
    && (forall t :: t in types ==> types[t] == |OfType(sources, done, t)|)
  }

  lemma TallyOne(sources: map<int, SourceRow>, done: set<int>, tokens: nat, types: map<string, nat>, id: int)
    requires Tallied(sources, done, tokens, types) && id in sources && id !in done
    ensures var t := sources[id].contentType;
            Tallied(sources, done + {id}, tokens + sources[id].tokenCount,
                    types[t := (if t in types then types[t] else 0) + 1])
  {
    var t := sources[id].contentType;
    TokensPick(sources, done + {id}, id);
    assert done + {id} - {id} == done;
    assert OfType(sources, done + {id}, t) == OfType(sources, done, t) + {id};
    if t !in types {
      forall o ensures o !in OfType(sources, done, t) {
        assert o in done ==> sources[o].contentType in Types(sources, done);
      }
      assert OfType(sources, done, t) == {};
    }
    forall u | u != t ensures OfType(sources, done + {id}, u) == OfType(sources, done, u) {
    }
    assert Types(sources, done + {id}) == Types(sources, done) + {t} by {
      assert Types(sources, done + {id}) <= Types(sources, done) + {t};
      forall u | u in Types(sources, done) + {t} ensures u in Types(sources, done + {id}) {
        if u != t {
          var o :| o in done && o in sources && sources[o].contentType == u;
          assert o in done + {id};
        }
      }
    }
  }

  function Raised(counts: map<string, nat>, extra: map<string, nat>): map<string, nat> {
    counts + map t | t in extra :: (if t in counts then counts[t] else 0) + extra[t]
  }

  lemma RaisedIsAdded(l: Ledger, k: Key, done: set<int>, types: map<string, nat>)
    requires types.Keys == Types(l.sources, done)
    requires forall t :: t in types ==> types[t] == |OfType(l.sources, done, t)|
    ensures Raised(if k in l.byType then l.byType[k] else map[], types) == AddTypes(l, k, done)
  {
  }

  lemma PostIs(l: Ledger, l': Ledger, k: Key, done: set<int>, broken: set<int>, tokens: nat, direct: nat)
    requires done <= l.sources.Keys
    requires var row := Row(l, k);
             l'.daily == l.daily[k := row.(tokensIngested := row.tokensIngested + tokens,
                                           sourcesIngested := row.sourcesIngested + |done|,
                                           sourcesFailed := row.sourcesFailed + |broken|)]
    requires l'.sources == Flag(l.sources, done, broken) && l'.byType == l.byType[k := AddTypes(l, k, done)]
    requires l'.completions == Attribute(l.completions, done, k) && l'.failures == Attribute(l.failures, broken, k)
    requires l'.direct == if direct == 0 then l.direct else l.direct[k := Direct(l, k) + direct]
    ensures l' == Post(l, k, done, broken, tokens, direct)
  {
  }

  class UsageDb {
    var sources: map<int, SourceRow>
    var daily: map<Key, Counters>
    var byType: map<Key, map<string, nat>>
    ghost var completions: map<int, Key>
    ghost var failures: map<int, Key>
    ghost var direct: map<Key, nat>

    ghost function Value(): Ledger
      reads this
    {
      Ledger(sources, daily, byType, completions, failures, direct)
    }

    constructor (sources: map<int, SourceRow>)
      ensures Value() == Ledger(sources, map[], map[], map[], map[], map[])
    {
      this.sources, daily, byType, completions, failures, direct := sources, map[], map[], map[], map[], map[];
    }

    /** One pass over the requested ids: the rows still to count, their tokens, their types. */
    method Collect(k: Key, ids: seq<int>) returns (done: set<int>, tokens: nat, types: map<string, nat>)
      ensures done == Fresh(Value(), k, ids) && done <= sources.Keys
      ensures Tallied(sources, done, tokens, types)
    {
      done, tokens, types := {}, 0, map[];
      var i := 0;
      assert ids[..0] == [];
      while i < |ids|
        invariant 0 <= i <= |ids|
        invariant done == Fresh(Value(), k, ids[..i]) && done <= sources.Keys
        invariant Tallied(sources, done, tokens, types)
      {
        var id := ids[i];
        assert ids[..i + 1] == ids[..i] + [id];
        if id !in done && id in sources && sources[id].org == k.org && sources[id].space == k.space
           && sources[id].status.Done? && !sources[id].completionRecorded
        {
          TallyOne(sources, done, tokens, types, id);
          var t := sources[id].contentType;
          types := types[t := (if t in types then types[t] else 0) + 1];
          done, tokens := done + {id}, tokens + sources[id].tokenCount;
        }
        i := i + 1;
      }
      assert ids[..|ids|] == ids;
    }

    method RecordIngestionUsage(k: Key, input: Input)
      modifies this
      ensures Value() == Record(old(Value()), k, input)
    {
      var done, sum, types := Collect(k, input.completedIds);
      var broken := CollectFailures(k, input.failedIds);
      var tokens := if |done| > 0 then sum
                    else if input.completedIds == [] && input.failedIds == [] then Max0(input.tokens) else 0;
      if tokens == 0 && |done| == 0 && |broken| == 0 {
        return;
      }
      Commit(k, done, broken, tokens, types, if |done| > 0 then 0 else tokens);
    }

    /** Counts and flags what was collected; `bare` of the tokens come without sources. */
    method Commit(k: Key, done: set<int>, broken: set<int>, tokens: nat, types: map<string, nat>, ghost bare: nat)
      requires done <= sources.Keys && types.Keys == Types(sources, done)
      requires forall t :: t in types ==> types[t] == |OfType(sources, done, t)|
      modifies this
      ensures Value() == Post(old(Value()), k, done, broken, tokens, bare)
    {
      ghost var before := Value();
      UpsertCounters(k, done, |done|, |broken|, tokens, types);
      FlagSources(k, done, broken, bare);
      PostIs(before, Value(), k, done, broken, tokens, bare);
    }

    method FlagSources(k: Key, done: set<int>, broken: set<int>, ghost bare: nat)
      modifies this`sources, this`completions, this`failures, this`direct
      ensures sources == Flag(old(sources), done, broken)
      ensures completions == Attribute(old(completions), done, k)
      ensures failures == Attribute(old(failures), broken, k)
      ensures direct == if bare == 0 then old(direct) else old(direct)[k := Direct(old(Value()), k) + bare]
    {
      direct := if bare == 0 then direct else direct[k := Direct(Value(), k) + bare];
      sources := Flag(sources, done, broken);
      completions, failures := Attribute(completions, done, k), Attribute(failures, broken, k);
    }

    method CollectFailures(k: Key, ids: seq<int>) returns (broken: set<int>)
      ensures broken == FreshFailures(Value(), k, ids)
    {
      broken := set id | id in ids && id in sources && sources[id].org == k.org
                         && sources[id].space == k.space && sources[id].status.Broken?
                         && !sources[id].failureRecorded;
    }

    /** A search adds its queries to the same counter row, creating it if it is missing. */
    method RecordSearchUsage(k: Key, queries: int)
      modifies this`daily
      ensures Value() == Searched(old(Value()), k, queries)
    {
      if queries > 0 {
        var row := if k in daily then daily[k] else Counters(0, 0, 0, 0);
        daily := daily[k := row.(searchQueries := row.searchQueries + queries)];
      }
    }

    /** The upserts of the counter row and of the per-type rows. */
    method UpsertCounters(k: Key, ghost done: set<int>, counted: nat, broken: nat, tokens: nat, types: map<string, nat>)
      requires types.Keys == Types(sources, done)
      requires forall t :: t in types ==> types[t] == |OfType(sources, done, t)|
      modifies this`daily, this`byType
      ensures daily == old(daily)[k := Row(old(Value()), k).(
                tokensIngested := Row(old(Value()), k).tokensIngested + tokens,
                sourcesIngested := Row(old(Value()), k).sourcesIngested + counted,
                sourcesFailed := Row(old(Value()), k).sourcesFailed + broken)]
      ensures byType == old(byType)[k := AddTypes(old(Value()), k, done)]
    {
      RaisedIsAdded(Value(), k, done, types);
      var row := if k in daily then daily[k] else Counters(0, 0, 0, 0);
      daily := daily[k := row.(tokensIngested := row.tokensIngested + tokens,
                               sourcesIngested := row.sourcesIngested + counted,
                               sourcesFailed := row.sourcesFailed + broken)];
      byType := byType[k := Raised(if k in byType then byType[k] else map[], types)];
    }
  }
}

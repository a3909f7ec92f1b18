/**
 * Record and replay of provider calls: the fixture store, the replay and hybrid
 * (replay-or-record) providers, and the capture loop that repeats hybrid passes until one
 * of them asks for nothing new. A key stands for the request it is hashed from.
 */
module Fixtures {
  import opened Common

  const MAX_PASSES := 6

  datatype Key =
    | EmbedKey(mode: string, text: string)
    | RerankKey(query: string, documents: seq<string>)
    | LlmKey(system: string, user: string)

  datatype Request =
    | Embed(mode: string, text: string)
    | EmbedBatch(mode: string, texts: seq<string>)
    | Rerank(query: string, documents: seq<string>)
    | CompleteJson(system: string, user: string)

  /** Provider payloads are their JSON text. */
  datatype Response = One(payload: string) | Many(payloads: seq<string>)

  type Entries = map<Key, string>

  /** The keys a request reads, in order; ranking no documents reads none. */
  function KeysOf(r: Request): seq<Key> {
    match r
    case Embed(mode, text) => [EmbedKey(mode, text)]
    case EmbedBatch(mode, texts) => seq(|texts|, i requires 0 <= i < |texts| => EmbedKey(mode, texts[i]))
    case Rerank(query, documents) => if documents == [] then [] else [RerankKey(query, documents)]
    case CompleteJson(system, user) => [LlmKey(system, user)]
  }

  predicate Recorded(e: Entries, r: Request) {
    forall k :: k in KeysOf(r) ==> k in e
  }

  /** What replay answers from `e`. */
  function Answer(e: Entries, r: Request): Response
    requires Recorded(e, r)
  {
    match r
    case EmbedBatch(mode, texts) =>
      Many(seq(|texts|, i requires 0 <= i < |texts| =>
        assert KeysOf(r)[i] in e; e[EmbedKey(mode, texts[i])]))
    case Rerank(query, documents) =>
      if documents == [] then Many([])
      else
        assert KeysOf(r)[0] in e;
        One(e[RerankKey(query, documents)])
    case _ =>
      assert KeysOf(r)[0] in e;
      One(e[KeysOf(r)[0]])
  }

  /** One hybrid call: exactly the missing keys are recorded, and the answer is read after that. */
  ghost predicate Served(e0: Entries, r: Request, e1: Entries, answer: Response, missed: bool) {
    && Extends(e0, e1)
    && Recorded(e1, r) && (forall k :: k in e1 ==> k in e0 || k in KeysOf(r))
    && (missed <==> !Recorded(e0, r))
    && answer == Answer(e1, r)
  }

  /** Store contents after a write, and the keys whose response a write changed. */
  datatype Stored = Stored(entries: Entries, collisions: seq<Key>)

  function Write(s: Stored, k: Key, payload: string): Stored {
    Stored(s.entries[k := payload],
           if k in s.entries && s.entries[k] != payload then s.collisions + [k] else s.collisions)
  }

  function WriteAll(s: Stored, writes: seq<(Key, string)>): Stored
    decreases |writes|
  {
    if writes == [] then s
    else
      var last := writes[|writes| - 1];
      Write(WriteAll(s, writes[..|writes| - 1]), last.0, last.1)
  }

  class FixtureStore {
    var entries: Entries
    /** Keys read so far. */
    var used: set<Key>
    var collisions: seq<Key>

    constructor (entries: Entries)
      ensures this.entries == entries && used == {} && collisions == []
    {
      this.entries, used, collisions := entries, {}, [];
    }

    /** `None` is the error a replay raises for a missing key. */
    method Get(k: Key) returns (payload: Option<string>)
      modifies this`used
      ensures payload == if k in entries then Some(entries[k]) else None
      ensures used == if k in entries then old(used) + {k} else old(used)
    {
      if k !in entries {
        return None;
      }
      used := used + {k};
      payload := Some(entries[k]);
    }

    method Set(k: Key, payload: string)
      modifies this`entries, this`collisions
      ensures Stored(entries, collisions) == Write(old(Stored(entries, collisions)), k, payload)
    {
      if k in entries && entries[k] != payload {
        collisions := collisions + [k];
      }
      entries := entries[k := payload];
    }
  }

  /* ---- replay providers ---- */

  /** What replay reads under one key. */
  function Read(e: Entries, k: Key): Option<Response> {
    if k in e then Some(One(e[k])) else None
  }

  /** Replay never touches the entries, and fails exactly when a key is missing. */
  method Replay(store: FixtureStore, r: Request) returns (answer: Option<Response>)
    modifies store`used
    ensures answer == if Recorded(store.entries, r) then Some(Answer(store.entries, r)) else None
    ensures match r
            case Embed(mode, text) => answer == Read(store.entries, EmbedKey(mode, text))
            case CompleteJson(system, user) => answer == Read(store.entries, LlmKey(system, user))
            case Rerank(query, documents) =>
              answer == if documents == [] then Some(Many([])) else Read(store.entries, RerankKey(query, documents))
            case EmbedBatch(mode, texts) =>
              if forall i :: 0 <= i < |texts| ==> EmbedKey(mode, texts[i]) in store.entries
              then answer.Some? && answer.value.Many? && |answer.value.payloads| == |texts|
                   && forall i :: 0 <= i < |texts| ==>
                     answer.value.payloads[i] == store.entries[EmbedKey(mode, texts[i])]
              else answer == None
  {
    match r {
      case EmbedBatch(mode, texts) =>
        assert forall i :: 0 <= i < |texts| ==> KeysOf(r)[i] == EmbedKey(mode, texts[i]);
        answer := ReadBatch(store, mode, texts);
      case Rerank(query, documents) =>
        if documents == [] {
          return Some(Many([]));
        }
        answer := ReadOne(store, r, RerankKey(query, documents));
      case Embed(mode, text) =>
        answer := ReadOne(store, r, EmbedKey(mode, text));
      case CompleteJson(system, user) =>
        answer := ReadOne(store, r, LlmKey(system, user));
    }
  }

  method ReadOne(store: FixtureStore, r: Request, k: Key) returns (answer: Option<Response>)
    requires KeysOf(r) == [k] && !r.EmbedBatch?
    modifies store`used
    ensures answer == if Recorded(store.entries, r) then Some(Answer(store.entries, r)) else None
  {
    assert Recorded(store.entries, r) <==> k in store.entries;
    var payload := store.Get(k);
    answer := if payload.None? then None else Some(One(payload.value));
  }

  method ReadBatch(store: FixtureStore, mode: string, texts: seq<string>) returns (answer: Option<Response>)
    modifies store`used
    ensures var r := EmbedBatch(mode, texts);
            answer == if Recorded(store.entries, r) then Some(Answer(store.entries, r)) else None
  {
    ghost var r := EmbedBatch(mode, texts);
    var payloads := [];
    var i := 0;
    while i < |texts|
      invariant 0 <= i == |payloads| <= |texts|
      invariant forall j :: 0 <= j < i ==>
                  EmbedKey(mode, texts[j]) in store.entries && payloads[j] == store.entries[EmbedKey(mode, texts[j])]
    {
      var payload := store.Get(EmbedKey(mode, texts[i]));
      if payload.None? {
        assert KeysOf(r)[i] !in store.entries;
        return None;
      }
      payloads := payloads + [payload.value];
      i := i + 1;
    }
    assert Recorded(store.entries, r);
    assert payloads == Answer(store.entries, r).payloads;
    answer := Some(Many(payloads));
  }

  /* ---- hybrid providers; `provider` is what the real call would return now, key by key ---- */

  /** Every new entry is an answer the provider gave for its key. */
  ghost predicate FromProvider(before: Entries, after: Entries, provider: (Key, nat) -> string) {
    forall k :: k in after && k !in before ==> exists i: nat :: after[k] == provider(k, i)
  }

  /** Serves from the store, or records the provider's answer and serves that. */
  method Hybrid(store: FixtureStore, r: Request, provider: (Key, nat) -> string)
    returns (answer: Response, missed: bool)
    modifies store
    ensures Served(old(store.entries), r, store.entries, answer, missed)
    ensures FromProvider(old(store.entries), store.entries, provider)
    ensures !r.EmbedBatch? ==> store.collisions == old(store.collisions)
  {
    match r {
      case EmbedBatch(mode, texts) =>
        answer, missed := HybridBatch(store, mode, texts, provider);
      case Rerank(query, documents) =>
        if documents == [] {
          return Many([]), false;
        }
        answer, missed := HybridOne(store, r, RerankKey(query, documents), provider);
      case Embed(mode, text) =>
        answer, missed := HybridOne(store, r, EmbedKey(mode, text), provider);
      case CompleteJson(system, user) =>
        answer, missed := HybridOne(store, r, LlmKey(system, user), provider);
    }
  }

  method HybridOne(store: FixtureStore, r: Request, k: Key, provider: (Key, nat) -> string)
    returns (answer: Response, missed: bool)
    requires KeysOf(r) == [k] && !r.EmbedBatch?
    modifies store
    ensures Served(old(store.entries), r, store.entries, answer, missed)
    ensures store.entries == if missed then old(store.entries)[k := provider(k, 0)] else old(store.entries)
    ensures store.collisions == old(store.collisions)
  {
    assert Recorded(store.entries, r) <==> k in store.entries;
    var payload := store.Get(k);
    if payload.Some? {
      return One(payload.value), false;
    }
    store.Set(k, provider(k, 0));
    assert Recorded(store.entries, r);
    return One(provider(k, 0)), true;
  }

  /** Only the texts without an entry go to the provider, and all answers are read back from the store. */
  method HybridBatch(store: FixtureStore, mode: string, texts: seq<string>, provider: (Key, nat) -> string)
    returns (answer: Response, missed: bool)
    modifies store
    ensures Served(old(store.entries), EmbedBatch(mode, texts), store.entries, answer, missed)
    ensures FromProvider(old(store.entries), store.entries, provider)
  {
    ghost var r, before := EmbedBatch(mode, texts), store.entries;
    var missing := Missing(store.entries, mode, texts);
    missed := missing != [];
    var i := 0;
    while i < |missing|
      invariant 0 <= i <= |missing|
      invariant Extends(before, store.entries)
      invariant forall k :: k in store.entries <==> k in before || k in missing[..i]
      invariant FromProvider(before, store.entries, provider)
    {
      store.Set(missing[i], provider(missing[i], i));
      assert missing[..i + 1] == missing[..i] + [missing[i]];
      i := i + 1;
    }
    assert missing[..|missing|] == missing;
    assert Recorded(store.entries, r);
    var read := ReadBatch(store, mode, texts);
    answer := read.value;
    if missed {
      assert missing[0] in KeysOf(r) && missing[0] !in before;
    }
  }

  method Missing(entries: Entries, mode: string, texts: seq<string>) returns (missing: seq<Key>)
    ensures forall k :: k in missing <==> k in KeysOf(EmbedBatch(mode, texts)) && k !in entries
  {
    missing := [];
    ghost var keys := KeysOf(EmbedBatch(mode, texts));
    var i := 0;
    while i < |texts|
      invariant 0 <= i <= |texts|
      invariant forall k :: k in missing <==> k in keys[..i] && k !in entries
    {
      assert keys[..i + 1] == keys[..i] + [keys[i]];
      if EmbedKey(mode, texts[i]) !in entries {
        missing := missing + [EmbedKey(mode, texts[i])];
      }
      i := i + 1;
    }
    assert keys[..|texts|] == keys;
  }

  /* ---- whole passes of an adaptive client ---- */

  /** A deterministic sequential client: the next request, from the responses so far. */
  type Client = seq<Response> -> Option<Request>

  datatype Exchange = Exchange(request: Request, response: Response, missed: bool)

  function Responses(log: seq<Exchange>): (r: seq<Response>)
    ensures |r| == |log| && forall i :: 0 <= i < |log| ==> r[i] == log[i].response
  {
    seq(|log|, i requires 0 <= i < |log| => log[i].response)
  }

  lemma ResponsesSnoc(log: seq<Exchange>, i: nat)
    requires 0 < i <= |log|
    ensures Responses(log[..i]) == Responses(log[..i - 1]) + [log[i - 1].response]
  {
  }

  /** A hybrid pass of `c`, with the entries before and after each of its calls. */
  ghost predicate HybridPass(c: Client, es: seq<Entries>, log: seq<Exchange>) {
    && |es| == |log| + 1
    && (forall i :: 0 <= i < |log| ==>
          && c(Responses(log[..i])) == Some(log[i].request)
          && Served(es[i], log[i].request, es[i + 1], log[i].response, log[i].missed))
  }

  /** A replay of `c` from `e`. */
  ghost predicate ReplayPass(c: Client, e: Entries, log: seq<Exchange>) {
    forall i :: 0 <= i < |log| ==>
      && c(Responses(log[..i])) == Some(log[i].request)
      && Recorded(e, log[i].request)
      && log[i].response == Answer(e, log[i].request)
  }

  predicate MissFree(log: seq<Exchange>) {
    forall i :: 0 <= i < |log| ==> !log[i].missed
  }

  lemma AnswerKept(e0: Entries, e1: Entries, r: Request)
    requires Recorded(e0, r) && Extends(e0, e1)
    ensures Recorded(e1, r) && Answer(e1, r) == Answer(e0, r)
  {
    assert Recorded(e1, r);
    match r
    case EmbedBatch(mode, texts) =>
      var a0, a1 := Answer(e0, r).payloads, Answer(e1, r).payloads;
      forall i | 0 <= i < |texts| ensures a1[i] == a0[i] {
        assert KeysOf(r)[i] == EmbedKey(mode, texts[i]);
      }
      assert a1 == a0;
    case Rerank(_, documents) =>
      assert documents != [] ==> KeysOf(r)[0] in e0;
    case _ =>
      assert KeysOf(r)[0] in e0;
  }

  lemma {:induction false} EntriesOnlyGrow(c: Client, es: seq<Entries>, log: seq<Exchange>, i: nat, j: nat)
    requires HybridPass(c, es, log) && i <= j < |es|
    ensures Extends(es[i], es[j])
    decreases j - i
  {
    if i < j {
      EntriesOnlyGrow(c, es, log, i, j - 1);
      assert Served(es[j - 1], log[j - 1].request, es[j], log[j - 1].response, log[j - 1].missed);
    }
  }

  /** Whatever a hybrid pass answered, a replay of its final store answers the same way. */
  lemma PassReplays(c: Client, es: seq<Entries>, log: seq<Exchange>)
    requires HybridPass(c, es, log)
    ensures ReplayPass(c, es[|log|], log)
  {
    forall i | 0 <= i < |log|
      ensures c(Responses(log[..i])) == Some(log[i].request)
      ensures Recorded(es[|log|], log[i].request)
      ensures log[i].response == Answer(es[|log|], log[i].request)
    {
      assert Served(es[i], log[i].request, es[i + 1], log[i].response, log[i].missed);
      EntriesOnlyGrow(c, es, log, i + 1, |log|);
      assert Recorded(es[i + 1], log[i].request);
      AnswerKept(es[i + 1], es[|log|], log[i].request);
    }
  }

  /** A pass that misses nothing leaves the store as it found it. */
  lemma {:induction false} MissFreeKeepsEntries(c: Client, es: seq<Entries>, log: seq<Exchange>, i: nat)
    requires HybridPass(c, es, log) && i < |es| && MissFree(log[..i])
    ensures es[i] == es[0]
  {
    if i > 0 {
      assert log[..i][..i - 1] == log[..i - 1] && log[..i][i - 1] == log[i - 1];
      MissFreeKeepsEntries(c, es, log, i - 1);
      assert Served(es[i - 1], log[i - 1].request, es[i], log[i - 1].response, log[i - 1].missed);
      assert Extends(es[i - 1], es[i]) && Extends(es[i], es[i - 1]);
    }
  }

  /** Replays of one client from one store cannot differ. */
  lemma {:induction false} ReplayIsDeterministic(c: Client, e: Entries, a: seq<Exchange>, b: seq<Exchange>, i: nat)
    requires ReplayPass(c, e, a) && ReplayPass(c, e, b) && i <= |a| && i <= |b|
    ensures Responses(a[..i]) == Responses(b[..i])
    ensures forall j :: 0 <= j < i ==> a[j].request == b[j].request && a[j].response == b[j].response
  {
    if i > 0 {
      ReplayIsDeterministic(c, e, a, b, i - 1);
    }
  }

  /** A replay goes on exactly until its client has nothing to ask. */
  lemma SilentAtEnd(c: Client, e: Entries, log: seq<Exchange>, i: nat)
    requires ReplayPass(c, e, log) && i <= |log| && c(Responses(log[..i])).None?
    ensures i == |log|
  {
  }

  /**
   * Capture is closed under replay: a miss-free hybrid pass leaves the store unchanged, and
   * every replay of that store repeats its exchanges, finding each key it asks for.
   */
  lemma MissFreePassIsClosed(c: Client, es: seq<Entries>, log: seq<Exchange>, replayed: seq<Exchange>)
    requires HybridPass(c, es, log) && MissFree(log) && c(Responses(log)).None?
    requires ReplayPass(c, es[0], replayed)
    ensures es[|log|] == es[0] && ReplayPass(c, es[0], log)
    ensures |replayed| <= |log|
    ensures forall i :: 0 <= i < |replayed| ==>
              replayed[i].request == log[i].request && replayed[i].response == log[i].response
    ensures c(Responses(replayed)).None? ==> |replayed| == |log|
    ensures c(Responses(replayed)).Some? ==> Recorded(es[0], c(Responses(replayed)).value)
  {
    assert log[..|log|] == log && replayed[..|replayed|] == replayed;
    MissFreeKeepsEntries(c, es, log, |log|);
    PassReplays(c, es, log);
    var common := if |replayed| < |log| then |replayed| else |log|;
    ReplayIsDeterministic(c, es[0], replayed, log, common);
    if c(Responses(log[..common])).None? {
      SilentAtEnd(c, es[0], log, common);
      SilentAtEnd(c, es[0], replayed, common);
    }
  }

  /**
   * The pass after any finished hybrid pass is miss-free: it repeats the first pass call by
   * call, because an entry is never overwritten once an answer was served from it.
   */
  lemma {:induction false} NextPassRepeats(
      c: Client, es: seq<Entries>, log: seq<Exchange>, es2: seq<Entries>, log2: seq<Exchange>, i: nat)
    requires HybridPass(c, es, log) && c(Responses(log)).None?
    requires HybridPass(c, es2, log2) && es2[0] == es[|log|] && i <= |log2|
    ensures i <= |log| && MissFree(log2[..i]) && es2[i] == es2[0]
    ensures Responses(log2[..i]) == Responses(log[..i])
    ensures forall j :: 0 <= j < i ==> log2[j].request == log[j].request
  {
    hide Answer, KeysOf, Responses;
    assert log[..|log|] == log;
    if i > 0 {
      NextPassRepeats(c, es, log, es2, log2, i - 1);
      var now := log2[i - 1];
      assert Some(now.request) == c(Responses(log2[..i - 1])) == c(Responses(log[..i - 1]));
      assert i - 1 < |log|;
      PassReplays(c, es, log);
      assert Recorded(es2[i - 1], now.request) && log[i - 1].response == Answer(es2[i - 1], now.request);
      assert Served(es2[i - 1], now.request, es2[i], now.response, now.missed);
      AnswerKept(es2[i - 1], es2[i], now.request);
      assert !now.missed;
      assert now.response == Answer(es2[i], now.request);
      assert forall j :: 0 <= j < i - 1 ==> log2[..i][j] == log2[..i - 1][j];
      ResponsesSnoc(log2, i);
      ResponsesSnoc(log, i);
      assert es2[i] == es2[0] by {
        assert Extends(es2[i - 1], es2[i]) && Extends(es2[i], es2[i - 1]);
      }
    }
  }

  /* ---- the capture loop ---- */

  /** The client stops after at most `n` responses. */
  ghost predicate StopsBy(c: Client, n: nat) {
    forall rs: seq<Response> {:trigger c(rs)} :: |rs| >= n ==> c(rs).None?
  }

  /** One hybrid pass of the whole corpus; `provider` answers may differ at every call. */
  method RunPass(store: FixtureStore, c: Client, n: nat, provider: (Key, nat) -> string)
    returns (misses: nat, ghost es: seq<Entries>, ghost log: seq<Exchange>)
    requires StopsBy(c, n)
    modifies store
    ensures HybridPass(c, es, log) && es[0] == old(store.entries) && es[|log|] == store.entries
    ensures c(Responses(log)).None?
    ensures misses == 0 <==> MissFree(log)
  {
    misses, es, log := 0, [store.entries], [];
    var heard: seq<Response> := [];
    while c(heard).Some?
      invariant heard == Responses(log)
      invariant HybridPass(c, es, log) && es[0] == old(store.entries) && es[|log|] == store.entries
      invariant misses == 0 <==> MissFree(log)
      decreases n - |heard|
    {
      var request := c(heard).value;
      ghost var before, was := log, es;
      var answer, missed := Hybrid(store, request, provider);
      if missed {
        misses := misses + 1;
      }
      log, es := log + [Exchange(request, answer, missed)], es + [store.entries];
      ExtendPass(c, was, before, store.entries, Exchange(request, answer, missed));
      assert heard + [answer] == Responses(log);
      heard := heard + [answer];
      assert forall i :: 0 <= i < |before| ==> log[i] == before[i];
      assert log[|before|].missed == missed;
    }
  }

  lemma ExtendPass(c: Client, es: seq<Entries>, log: seq<Exchange>, e: Entries, x: Exchange)
    requires HybridPass(c, es, log) && c(Responses(log)) == Some(x.request)
    requires Served(es[|log|], x.request, e, x.response, x.missed)
    ensures HybridPass(c, es + [e], log + [x])
  {
    var es', log' := es + [e], log + [x];
    forall i | 0 <= i < |log'|
      ensures c(Responses(log'[..i])) == Some(log'[i].request)
      ensures Served(es'[i], log'[i].request, es'[i + 1], log'[i].response, log'[i].missed)
    {
      assert log'[..i] == log[..i];
      if i == |log| {
        assert log[..i] == log;
      }
    }
  }

  /**
   * Capture to a fixpoint. The loop stops in its first or second pass and so never gives
   * up, whatever the provider answers; the store it leaves replays the whole client.
   */
  method Capture(store: FixtureStore, c: Client, n: nat, provider: nat -> (Key, nat) -> string)
    returns (pass: nat, ghost log: seq<Exchange>)
    requires StopsBy(c, n)
    modifies store
    ensures pass < 2 <= MAX_PASSES
    ensures ReplayPass(c, store.entries, log) && c(Responses(log)).None?
  {
    pass := 0;
    ghost var prior: seq<Entries> := [];
    log := [];
    while pass < MAX_PASSES
      invariant pass <= 1
      invariant pass == 1 ==>
                  HybridPass(c, prior, log) && c(Responses(log)).None? && prior[|log|] == store.entries
    {
      ghost var es: seq<Entries>, now: seq<Exchange>;
      var misses: nat;
      misses, es, now := RunPass(store, c, n, provider(pass));
      assert now[..|now|] == now;
      if pass == 1 {
        NextPassRepeats(c, prior, log, es, now, |now|);
      }
      if misses == 0 {
        PassReplays(c, es, now);
        log := now;
        break;
      }
      prior, log := es, now;
      pass := pass + 1;
    }
  }

  /* ---- recording without the sequential discipline ---- */

  /** No write changed a response that an earlier call may already have been served. */
  ghost predicate NeverOverwrites(s: Stored, writes: seq<(Key, string)>)
    decreases |writes|
  {
    writes == [] ||
    var init := writes[..|writes| - 1];
    NeverOverwrites(s, init) && Extends(WriteAll(s, init).entries, WriteAll(s, writes).entries)
  }

  /** The collision list is the exact alarm for calls that overlap. */
  lemma {:induction false} NoCollisionIffNeverOverwritten(s: Stored, writes: seq<(Key, string)>)
    ensures WriteAll(s, writes).collisions == s.collisions <==> NeverOverwrites(s, writes)
    ensures NeverOverwrites(s, writes) ==> Extends(s.entries, WriteAll(s, writes).entries)
    decreases |writes|
  {
    if writes != [] {
      var init, last := writes[..|writes| - 1], writes[|writes| - 1];
      NoCollisionIffNeverOverwritten(s, init);
      CollisionsOnlyGrow(s, init);
      WriteExtendsIffNoCollision(WriteAll(s, init), last.0, last.1);
    }
  }

  lemma WriteExtendsIffNoCollision(s: Stored, k: Key, payload: string)
    ensures Extends(s.entries, Write(s, k, payload).entries) <==> Write(s, k, payload).collisions == s.collisions
    ensures |Write(s, k, payload).collisions| > |s.collisions| || Write(s, k, payload).collisions == s.collisions
  {
  }

  lemma {:induction false} CollisionsOnlyGrow(s: Stored, writes: seq<(Key, string)>)
    ensures s.collisions <= WriteAll(s, writes).collisions
    decreases |writes|
  {
    if writes != [] {
      CollisionsOnlyGrow(s, writes[..|writes| - 1]);
    }
  }
}
